/**
 Histories in which a version rollback unlocks the agent over an unfinished swap.
 The journal of that swap keeps waiting for the database and its backup stays, so
 whatever is committed afterwards meets it again in the next recovery pass.  What
 such a pass does to the live tree, and exactly when it is the right thing.
 */
module UnfinishedRelease {
  import opened Wrappers
  import opened Protocol
  import opened Runs
  import opened RecoveryPlan
  import opened RecoveryPass

  /** A swap that a pass will take back: unfinished, not named by the database, backup at hand. */
  predicate Undoes(d: Disk, r: RunId) { Swapping(d, r) && !DbNames(d, r) && r in d.backups }

  /** The database head was committed by a run whose journal is not acknowledged yet. */
  predicate HeadPending(d: Disk) { d.db.Some? && d.db.value.run.Some? && InState(d, d.db.value.run.value, PendingDb) }

  /** The tree has the content the database head names; while the run that wrote the
      head is still to be acknowledged, it is that run's tree to the last file. */
  predicate MatchesHead(d: Disk, t: Tree)
    requires d.db.Some?
  {
    t.versioned == d.db.value.live.versioned && (HeadPending(d) ==> t == d.db.value.live)
  }

  /** The outcome the database names: its content is live and its run is acknowledged. */
  predicate Realised(d: Disk, e: Disk)
    requires d.db.Some?
  {
    && e.db == d.db && e.persistent.Some? && e.persistent.value.versioned == d.db.value.live.versioned
    && (d.db.value.run.Some? ==> InState(e, d.db.value.run.value, Acknowledged))
  }

  ghost predicate AlwaysRealised(d: Disk)
    requires d.db.Some?
  {
    forall journals, receipts | Listing(journals, d.journals.Keys) && Listing(receipts, d.receipts.Keys) ::
      Realised(d, Pass(d, journals, receipts).0)
  }

  // ------------------------------------------------------- one visit of a pass

  /** Nothing but the records of run `r` and what all runs share differ; the database never does. */
  ghost predicate Beside(d: Disk, e: Disk, r: RunId) {
    && e.db == d.db && e.journals.Keys == d.journals.Keys
    && (forall s <- d.journals :: s != r ==> e.journals[s] == d.journals[s])
    && (forall s | s != r :: s in e.backups <==> s in d.backups)
    && (forall s <- d.backups :: s != r ==> e.backups[s] == d.backups[s])
    && (!HeadIsRun(d, r) ==> e.head == d.head && e.versions == d.versions)
  }

  lemma NoteOnly(d: Disk, e: Event)
    ensures Note(d, e) == d.(events := Note(d, e).events)
  {
  }

  lemma AcknowledgeOnly(d: Disk, r: RunId, version: Option<VersionId>, final: Option<Tree>)
    ensures SameButAudit(d, UpdateRecoveredReceipt(d, r, version, final))
  {
    NoteOnly(d, AcknowledgedEvent(d, r, final));
    hide Note;
  }

  lemma RolledBackOnly(d: Disk, r: RunId, base: Tree)
    ensures SameButAudit(d, MarkReceiptRolledBack(d, r, base))
  {
    NoteOnly(d, RolledBackEvent(d, r, base));
    hide Note;
  }

  lemma RevertOnly(d: Disk, r: RunId)
    ensures Revert(d, r) == d.(versions := Revert(d, r).versions, head := Revert(d, r).head)
    ensures !HeadIsRun(d, r) ==> Revert(d, r) == d
  {
    hide HeadIsRun;
  }

  lemma CleanUpOnly(d: Disk, r: RunId, base: Tree)
    ensures var e := MarkReceiptRolledBack(Revert(d, r), r, base);
            && e == d.(versions := e.versions, head := e.head, receipts := e.receipts, events := e.events)
            && (!HeadIsRun(d, r) ==> e.versions == d.versions && e.head == d.head)
  {
    RevertOnly(d, r);
    RolledBackOnly(Revert(d, r), r, base);
    hide Revert, MarkReceiptRolledBack, HeadIsRun;
  }

  lemma RestoreOnly(d: Disk, r: RunId)
    requires r in d.journals
    ensures var (e, ok) := RestoreBackup(d, r);
            && Beside(d, e, r) && e.head == d.head && e.versions == d.versions
            && (r in d.backups ==> e.persistent == Some(d.backups[r]))
            && (ok <==> e.persistent == Some(d.journals[r].base))
            && e.journals[r] == if ok then d.journals[r].(state := RolledBack) else d.journals[r]
  {
    RestoreBackupResult(d, r);
    if r in d.backups { MoveOnly(d, r); }
    hide HeadIsRun, MoveBackup, RestoreBackup;
  }

  lemma ClosedBranch(d: Disk, r: RunId)
    requires r in d.journals && !Swapping(d, r)
    ensures var j := d.journals[r];
            RecoverJournal(d, r).0 ==
              if j.state == Acknowledged then
                if j.kind == Promotion then UpdateRecoveredReceipt(d, r, None, Some(j.target)) else d
              else if j.state == RolledBack then MarkReceiptRolledBack(Revert(d, r), r, j.base)
              else Mark(Apply(RemoveStaging(r), d), r, RolledBack)
  {
    hide UpdateRecoveredReceipt, MarkReceiptRolledBack, Revert, HeadIsRun, Apply, Mark;
  }

  /** What the visit of a journal outside a swap leaves alone. */
  ghost predicate Quietly(d: Disk, e: Disk, r: RunId) {
    && Beside(d, e, r) && e.persistent == d.persistent
    && (InState(d, r, Acknowledged) ==> InState(e, r, Acknowledged))
  }

  lemma AuditQuietly(d: Disk, e: Disk, r: RunId)
    requires r in d.journals && SameButAudit(d, e)
    ensures Quietly(d, e, r)
  {
  }

  lemma CleanUpQuietly(d: Disk, r: RunId, base: Tree)
    requires InState(d, r, RolledBack)
    ensures Quietly(d, MarkReceiptRolledBack(Revert(d, r), r, base), r)
  {
    CleanUpOnly(d, r, base);
    hide MarkReceiptRolledBack, Revert, HeadIsRun;
  }

  lemma DiscardQuietly(d: Disk, r: RunId)
    requires InState(d, r, Preparing)
    ensures Quietly(d, Mark(Apply(RemoveStaging(r), d), r, RolledBack), r)
  {
    MarkOnly(d, r, RolledBack);
    MarkOnly(Apply(RemoveStaging(r), d), r, RolledBack);
    hide Mark, Apply, HeadIsRun;
  }

  /** A journal that is not in a swap: the visit moves no tree. */
  lemma VisitClosed(d: Disk, r: RunId)
    requires r in d.journals && !Swapping(d, r)
    ensures Quietly(d, RecoverJournal(d, r).0, r)
  {
    var j := d.journals[r];
    ClosedBranch(d, r);
    hide RecoverJournal, UpdateRecoveredReceipt, MarkReceiptRolledBack, Revert, HeadIsRun, Apply, Mark, Quietly;
    if j.state == Acknowledged {
      AcknowledgeOnly(d, r, None, Some(j.target));
      AuditQuietly(d, RecoverJournal(d, r).0, r);
    } else if j.state == RolledBack {
      CleanUpQuietly(d, r, j.base);
    } else {
      DiscardQuietly(d, r);
    }
  }

  /** A pending journal that passes the test of version, database head and tree. */
  lemma VisitAgreed(d: Disk, r: RunId)
    requires r in d.journals && Agreed(d, r)
    ensures var e := RecoverJournal(d, r).0;
            && Beside(d, e, r) && e.persistent == d.persistent
            && (RollbackVersionAgrees(d, r) ==> InState(e, r, Acknowledged))
  {
    if RollbackVersionAgrees(d, r) {
      MarkOnly(d, r, Acknowledged);
      MarkOnly(Apply(RemoveBackup(r), d), r, Acknowledged);
      CommittedBranch(d, r);
      var acknowledged := Mark(Apply(RemoveBackup(r), d), r, Acknowledged);
      AcknowledgeOnly(acknowledged, r, d.head, None);
      hide UpdateRecoveredReceipt, DatabaseCommitted, RollbackVersionAgrees, HeadIsRun, Apply, Mark, RecoverJournal;
    } else {
      hide DatabaseCommitted, RollbackVersionAgrees, HeadIsRun;
    }
  }

  /** A swap that does not: its backup is put back, whatever is live, and it is not acknowledged. */
  lemma VisitTakesBack(d: Disk, r: RunId)
    requires Swapping(d, r) && !Agreed(d, r)
    ensures var e := RecoverJournal(d, r).0;
            && Beside(d, e, r) && !InState(e, r, Acknowledged)
            && e.persistent == if r in d.backups then Some(d.backups[r]) else d.persistent
  {
    var j := d.journals[r];
    UncommittedBranch(d, r);
    SameHeadRun(d, r);
    hide Agreed, RecoverJournal, RestoreBackup, Revert, MarkReceiptRolledBack, Mark, HeadIsRun;
    if r in d.backups {
      RestoreOnly(d, r);
      CleanUpOnly(RestoreBackup(d, r).0, r, j.base);
    } else {
      MarkOnly(d, r, RolledBack);
      CleanUpOnly(Mark(d, r, RolledBack), r, j.base);
    }
  }

  lemma SameHeadRun(d: Disk, r: RunId)
    requires r in d.journals
    ensures HeadIsRun(Mark(d, r, RolledBack), r) == HeadIsRun(d, r)
    ensures HeadIsRun(RestoreBackup(d, r).0, r) == HeadIsRun(d, r)
  {
    RestoreOnly(d, r);
    MarkOnly(d, r, RolledBack);
    hide RestoreBackup, Mark, Beside;
  }

  lemma VisitBeside(d: Disk, r: RunId)
    requires r in d.journals
    ensures Beside(d, RecoverJournal(d, r).0, r)
  {
    hide Agreed, RecoverJournal, Beside;
    if !Swapping(d, r) {
      VisitClosed(d, r);
    } else if Agreed(d, r) {
      VisitAgreed(d, r);
    } else {
      VisitTakesBack(d, r);
    }
  }

  // ------------------------------------------------------------ a whole pass

  /** The records of the runs a stretch of the pass has not visited are as they were. */
  ghost predicate Apart(d: Disk, e: Disk, runs: seq<RunId>) {
    && e.db == d.db && e.journals.Keys == d.journals.Keys
    && (forall s <- d.journals :: s !in runs ==> e.journals[s] == d.journals[s])
    && (forall s | s !in runs :: s in e.backups <==> s in d.backups)
    && (forall s <- d.backups :: s !in runs ==> e.backups[s] == d.backups[s])
  }

  lemma ApartNext(d: Disk, m: Disk, e: Disk, runs: seq<RunId>, r: RunId)
    requires Apart(d, m, runs) && Beside(m, e, r)
    ensures Apart(d, e, runs + [r])
  {
  }

  lemma {:induction false} JournalsApart(d: Disk, runs: seq<RunId>)
    ensures Apart(d, RecoverJournals(d, runs).0, runs)
  {
    hide RecoverJournal, Beside;
    if runs != [] {
      var init, r := runs[..|runs| - 1], runs[|runs| - 1];
      JournalsApart(d, init);
      var m := RecoverJournals(d, init).0;
      assert runs == init + [r];
      if r in m.journals {
        VisitBeside(m, r);
        hide Apart;
        ApartNext(d, m, RecoverJournal(m, r).0, init, r);
      }
    }
  }

  lemma VisitLast(d: Disk, runs: seq<RunId>, r: RunId)
    requires r in d.journals
    ensures r in RecoverJournals(d, runs).0.journals
    ensures RecoverJournals(d, runs + [r]).0 == RecoverJournal(RecoverJournals(d, runs).0, r).0
  {
    hide RecoverJournal;
    JournalsApart(d, runs);
    assert (runs + [r])[..|runs|] == runs;
  }

  lemma UnnamedDisagrees(d: Disk, r: RunId)
    requires r in d.journals && !DbNames(d, r)
    ensures !Agreed(d, r)
  {
    hide HeadIsRun;
  }

  /** A swap recovery takes back is what the pass ends in, if it is visited last. */
  lemma TakenBackLast(d: Disk, runs: seq<RunId>, r: RunId)
    requires Undoes(d, r) && r !in runs
    ensures RecoverJournals(d, runs + [r]).0.persistent == Some(d.backups[r])
  {
    JournalsApart(d, runs);
    VisitLast(d, runs, r);
    var m := RecoverJournals(d, runs).0;
    UnnamedDisagrees(m, r);
    VisitTakesBack(m, r);
    hide RecoverJournal, RecoverJournals, Beside, Agreed;
  }

  /** It even takes a committed run back whose tree it has just displaced. */
  lemma DisplacedRunIsTakenBack(d: Disk, runs: seq<RunId>, r: RunId, s: RunId)
    requires Undoes(d, r) && r !in runs && InState(d, s, PendingDb) && s !in runs && s != r
    requires d.backups[r] != d.journals[s].target
    ensures !InState(RecoverJournals(d, runs + [r] + [s]).0, s, Acknowledged)
  {
    TakenBackLast(d, runs, r);
    JournalsApart(d, runs + [r]);
    VisitLast(d, runs + [r], s);
    var m := RecoverJournals(d, runs + [r]).0;
    VisitTakesBack(m, s) by { hide DatabaseCommitted; }
    hide RecoverJournal, RecoverJournals, Beside, Agreed;
  }

  lemma {:induction false} ReceiptsOnly(d: Disk, runs: seq<RunId>)
    ensures SameButAudit(d, RecoverReceipts(d, runs).0)
  {
    hide MarkReceiptRolledBack;
    if runs != [] {
      var init, r := runs[..|runs| - 1], runs[|runs| - 1];
      ReceiptsOnly(d, init);
      var m := RecoverReceipts(d, init).0;
      if r in m.receipts { RolledBackOnly(m, r, m.receipts[r].base); }
    }
  }

  lemma PassMovesByJournals(d: Disk, journals: seq<RunId>, receipts: seq<RunId>)
    ensures var m, e := RecoverJournals(d, journals).0, Pass(d, journals, receipts).0;
            e.persistent == m.persistent && e.journals == m.journals && e.db == m.db
  {
    ReceiptsOnly(RecoverJournals(d, journals).0, receipts);
    hide RecoverJournals, RecoverReceipts;
  }

  /** Every swap the pass takes back has what the database names in its backup. */
  ghost predicate Harmless(d: Disk)
    requires d.db.Some?
  {
    forall r | Undoes(d, r) :: MatchesHead(d, d.backups[r])
  }

  /** The run the database names, if it is to be acknowledged, still passes the test that does it. */
  ghost predicate HeadStands(d: Disk)
    requires d.db.Some?
  {
    d.db.value.run.Some? ==>
      var s := d.db.value.run.value;
      && s in d.journals && d.journals[s].state in {PendingDb, Acknowledged}
      && (d.journals[s].state == PendingDb ==>
            Agreed(d, s) && RollbackVersionAgrees(d, s) && d.db.value.live == d.journals[s].target)
  }

  ghost predicate TreeSoFar(d: Disk, m: Disk, runs: seq<RunId>) {
    || (m.persistent == d.persistent && forall q <- runs :: !Undoes(d, q))
    || (exists q <- runs :: Undoes(d, q) && m.persistent == Some(d.backups[q]))
  }

  /** The head of the index is untouched until the run it belongs to is visited, and acknowledged then. */
  ghost predicate HeadSoFar(d: Disk, m: Disk, runs: seq<RunId>)
    requires d.db.Some?
  {
    d.db.value.run.Some? ==>
      var s := d.db.value.run.value;
      && (s in runs ==> InState(m, s, Acknowledged))
      && (s !in runs && HeadPending(d) ==> m.head == d.head && m.versions == d.versions)
  }

  lemma TreeStays(d: Disk, m: Disk, e: Disk, runs: seq<RunId>, r: RunId)
    requires TreeSoFar(d, m, runs) && e.persistent == m.persistent && !Undoes(d, r)
    ensures TreeSoFar(d, e, runs + [r])
  {
    if exists q <- runs :: Undoes(d, q) && m.persistent == Some(d.backups[q]) {
      var q :| q in runs && Undoes(d, q) && m.persistent == Some(d.backups[q]);
      assert q in runs + [r];
    }
  }

  lemma TreeMoves(d: Disk, e: Disk, runs: seq<RunId>, r: RunId)
    requires Undoes(d, r) && e.persistent == Some(d.backups[r])
    ensures TreeSoFar(d, e, runs + [r])
  {
    hide Undoes;
    assert r in runs + [r];
  }

  lemma HeadVisit(d: Disk, m: Disk, runs: seq<RunId>, s: RunId)
    requires d.db.Some? && d.db.value.run == Some(s) && HeadStands(d) && (HeadPending(d) ==> Harmless(d)) && s !in runs
    requires Apart(d, m, runs) && TreeSoFar(d, m, runs) && HeadSoFar(d, m, runs) && s in m.journals
    ensures var e := RecoverJournal(m, s).0;
            Apart(d, e, runs + [s]) && TreeSoFar(d, e, runs + [s]) && HeadSoFar(d, e, runs + [s])
  {
    var e := RecoverJournal(m, s).0;
    if m.journals[s].state == Acknowledged {
      VisitClosed(m, s);
    } else {
      assert Agreed(m, s) && RollbackVersionAgrees(m, s) by { StillAgreed(d, m, runs, s); }
      hide Agreed;
      VisitAgreed(m, s);
    }
    hide RecoverJournal, Agreed, HeadStands, Harmless, RollbackVersionAgrees;
    assert !Undoes(d, s);
    TreeStays(d, m, e, runs, s);
    ApartNext(d, m, e, runs, s);
  }

  lemma StillAgreed(d: Disk, m: Disk, runs: seq<RunId>, s: RunId)
    requires d.db.Some? && d.db.value.run == Some(s) && HeadStands(d) && Harmless(d) && InState(d, s, PendingDb) && s !in runs
    requires Apart(d, m, runs) && TreeSoFar(d, m, runs) && HeadSoFar(d, m, runs) && s in m.journals
    ensures Agreed(m, s) && RollbackVersionAgrees(m, s)
  {
    assert HeadPending(d);
    assert m.persistent == Some(d.journals[s].target) by {
      hide RollbackVersionAgrees, DatabaseCommitted;
      if q :| q in runs && Undoes(d, q) && m.persistent == Some(d.backups[q]) {
        assert MatchesHead(d, d.backups[q]);
      }
    }
    hide TreeSoFar, Harmless;
  }

  lemma OtherVisit(d: Disk, m: Disk, runs: seq<RunId>, r: RunId)
    requires d.db.Some? && d.db.value.run != Some(r) && HeadStands(d) && r !in runs && r in d.journals
    requires Apart(d, m, runs) && TreeSoFar(d, m, runs) && HeadSoFar(d, m, runs) && r in m.journals
    ensures var e := RecoverJournal(m, r).0;
            Apart(d, e, runs + [r]) && TreeSoFar(d, e, runs + [r]) && HeadSoFar(d, e, runs + [r])
  {
    var e := RecoverJournal(m, r).0;
    VisitBeside(m, r);
    ApartNext(d, m, e, runs, r);
    assert HeadSoFar(d, e, runs + [r]) by {
      hide RecoverJournal, TreeSoFar, RollbackVersionAgrees;
    }
    hide HeadSoFar, HeadStands, Beside, RecoverJournal;
    if Swapping(m, r) {
      UnnamedDisagrees(m, r);
      VisitTakesBack(m, r);
      if Undoes(d, r) { TreeMoves(d, e, runs, r); } else { TreeStays(d, m, e, runs, r); }
    } else {
      VisitClosed(m, r);
      TreeStays(d, m, e, runs, r);
    }
  }

  lemma {:induction false} JournalsForward(d: Disk, runs: seq<RunId>)
    requires d.db.Some? && HeadStands(d) && (HeadPending(d) ==> Harmless(d)) && Distinct(runs) && (forall r <- runs :: r in d.journals)
    ensures var m := RecoverJournals(d, runs).0;
            Apart(d, m, runs) && TreeSoFar(d, m, runs) && HeadSoFar(d, m, runs)
  {
    hide RecoverJournal, HeadStands, Harmless, TreeSoFar, HeadSoFar;
    if runs == [] {
      assert TreeSoFar(d, d, runs) && HeadSoFar(d, d, runs) by { NothingSoFar(d); }
    } else {
      var init, r := runs[..|runs| - 1], runs[|runs| - 1];
      JournalsForward(d, init);
      var m := RecoverJournals(d, init).0;
      assert runs == init + [r] && r in m.journals && r !in init;
      hide Apart;
      if d.db.value.run == Some(r) { HeadVisit(d, m, init, r); } else { OtherVisit(d, m, init, r); }
    }
  }

  lemma NothingSoFar(d: Disk)
    requires d.db.Some?
    ensures TreeSoFar(d, d, []) && HeadSoFar(d, d, [])
  {
  }

  // ------------------------------------------------------------ reachable disks

  lemma HeadStandsOnDisk(d: Disk)
    requires Inv(d)
    ensures d.db.Some? && HeadStands(OnDisk(d))
  {
    InvParts(d);
    if d.db.value.run.Some? {
      var s := d.db.value.run.value;
      assert s in d.journals && d.journals[s].state in {PendingDb, Acknowledged} && d.db.value.live == d.journals[s].target by {
        hide Inv, TreesOk, JournalsOk, OrphansOk, AuditOk;
      }
      if s in d.orphans { assert false by { OrphanUnjournalled(d, s); } }
      if d.journals[s].state == PendingDb {
        hide Inv;
        CommittedIffNamed(d, s);
        AgreedOnDisk(d, s);
      }
    }
  }

  lemma AgreedOnDisk(d: Disk, s: RunId)
    requires s in d.journals && s !in d.orphans && Agreed(d, s) && RollbackVersionAgrees(d, s)
    ensures Agreed(OnDisk(d), s) && RollbackVersionAgrees(OnDisk(d), s)
  {
  }

  lemma OrphanIsUndone(d: Disk, r: RunId)
    requires Inv(d) && r in d.orphans
    ensures Undoes(OnDisk(d), r) && OnDisk(d).backups[r] == d.orphans[r].journal.base
  {
    assert OrphanOk(d, r);
  }

  /** Without a swap to take back the live tree already is the outcome. */
  lemma NothingToUndo(d: Disk)
    requires Inv(d) && (d.lock.Some? ==> !Undoes(d, d.lock.value.run))
    ensures d.persistent == Fate(d)
  {
    hide AuditOk, JournalsOk, OrphansOk;
  }

  lemma UntouchedIsFaithful(ops: seq<Op>, tree: Tree)
    requires Legal(ops, Fresh(tree))
    requires var d := OnDisk(Exec(ops, Fresh(tree))); forall r <- d.journals :: !Undoes(d, r)
    ensures var d := Exec(ops, Fresh(tree));
            d.persistent.Some? && d.db.Some? && d.persistent.value.versioned == d.db.value.live.versioned
  {
    var d := Exec(ops, Fresh(tree));
    hide Legal, Exec, Inv, Fate, Undoes;
    FreshInv(tree);
    RunKeepsInv(ops, Fresh(tree));
    forall r <- d.orphans ensures false { OrphanIsUndone(d, r); UndoneIsJournalled(OnDisk(d), r); }
    assert d.orphans == map[] && OnDisk(d) == d;
    OrphansOfRun(ops, Fresh(tree));
    forall op <- ops | op.ReleaseUnfinished? ensures false { assert op.run in d.orphans; }
    GuardedRunsAreFaithful(ops, tree);
    if d.lock.Some? && Undoes(d, d.lock.value.run) { UndoneIsJournalled(d, d.lock.value.run); }
    NothingToUndo(d);
  }

  lemma UndoneIsJournalled(d: Disk, r: RunId)
    requires Undoes(d, r)
    ensures r in d.journals
  {
  }

  lemma HarmlessIsRealised(ops: seq<Op>, tree: Tree, journals: seq<RunId>, receipts: seq<RunId>)
    requires Legal(ops, Fresh(tree))
    requires var d := OnDisk(Exec(ops, Fresh(tree)));
             && d.db.Some? && HeadStands(d) && Harmless(d)
             && Listing(journals, d.journals.Keys)
    ensures var d := OnDisk(Exec(ops, Fresh(tree))); Realised(d, Pass(d, journals, receipts).0)
  {
    var d := OnDisk(Exec(ops, Fresh(tree)));
    hide Legal, Exec, OnDisk, Pass, RecoverJournals;
    JournalsForward(d, journals);
    PassMovesByJournals(d, journals, receipts);
    var m := RecoverJournals(d, journals).0;
    if q :| q in journals && Undoes(d, q) && m.persistent == Some(d.backups[q]) {
      assert MatchesHead(d, d.backups[q]);
    } else {
      UntouchedIsFaithful(ops, tree);
      OnDiskTree(Exec(ops, Fresh(tree)));
    }
  }

  lemma OnDiskTree(d: Disk)
    ensures OnDisk(d).persistent == d.persistent && OnDisk(d).db == d.db
  {
  }

  /** Once the agent is unlocked over unfinished swaps, every pass ends in the base of
      one of them, whatever the database names. */
  lemma UnlockedPassUndoes(ops: seq<Op>, tree: Tree, journals: seq<RunId>, receipts: seq<RunId>)
    requires Legal(ops, Fresh(tree))
    requires var d := Exec(ops, Fresh(tree));
             d.lock.None? && d.orphans != map[] && Listing(journals, OnDisk(d).journals.Keys)
    ensures var d := Exec(ops, Fresh(tree));
            var e := Pass(OnDisk(d), journals, receipts).0;
            e.db == d.db && exists r <- d.orphans :: e.persistent == Some(d.orphans[r].journal.base)
  {
    var core := Exec(ops, Fresh(tree));
    var d := OnDisk(core);
    hide Legal, Exec, Pass, RecoverJournals, Inv, HeadStands;
    FreshInv(tree);
    RunKeepsInv(ops, Fresh(tree));
    HeadStandsOnDisk(core);
    UnlockedUndoesOrphans(core);
    JournalsForward(d, journals);
    PassMovesByJournals(d, journals, receipts);
    var m := RecoverJournals(d, journals).0;
    var r :| r in core.orphans;
    OrphanIsUndone(core, r);
    var q :| q in journals && Undoes(d, q) && m.persistent == Some(d.backups[q]);
    OrphanIsUndone(core, q);
  }

  lemma UnlockedUndoesOrphans(d: Disk)
    requires Inv(d) && d.lock.None?
    ensures !HeadPending(OnDisk(d)) && (forall r | Undoes(OnDisk(d), r) :: r in d.orphans)
  {
    hide TreesOk, VersionsOk, AuditOk, Covers;
    forall r <- d.journals ensures !Swapping(d, r) { assert JournalOk(d, r); }
    forall r | r in d.orphans ensures !DbNames(d, r) { assert OrphanOk(d, r); }
  }

  lemma Arranged(keys: set<RunId>) returns (runs: seq<RunId>)
    ensures Listing(runs, keys)
  {
    runs := [];
    var rest := keys;
    while rest != {}
      invariant rest <= keys && Listing(runs, keys - rest)
      decreases |rest|
    {
      var r :| r in rest;
      rest, runs := rest - {r}, runs + [r];
    }
  }

  /** For some listing order the pass ends in the backup of this swap. */
  lemma SomePassEndsIn(d: Disk, r: RunId) returns (journals: seq<RunId>, receipts: seq<RunId>)
    requires Undoes(d, r)
    ensures Listing(journals, d.journals.Keys) && Listing(receipts, d.receipts.Keys)
    ensures Pass(d, journals, receipts).0.persistent == Some(d.backups[r])
  {
    var rest := Arranged(d.journals.Keys - {r});
    journals := rest + [r];
    receipts := Arranged(d.receipts.Keys);
    TakenBackLast(d, rest, r);
    PassMovesByJournals(d, journals, receipts);
    hide Pass, RecoverJournals;
  }

  /** And where the committed run is still to be acknowledged, some order takes it back. */
  lemma SomePassForgets(d: Disk, r: RunId, s: RunId) returns (journals: seq<RunId>, receipts: seq<RunId>)
    requires Undoes(d, r) && InState(d, s, PendingDb) && s != r && d.backups[r] != d.journals[s].target
    ensures Listing(journals, d.journals.Keys) && Listing(receipts, d.receipts.Keys)
    ensures !InState(Pass(d, journals, receipts).0, s, Acknowledged)
  {
    var rest := Arranged(d.journals.Keys - {r, s});
    journals := rest + [r] + [s];
    receipts := Arranged(d.receipts.Keys);
    DisplacedRunIsTakenBack(d, rest, r, s);
    PassMovesByJournals(d, journals, receipts);
    hide Pass, RecoverJournals;
  }

  lemma RealisedIsHarmless(d: Disk, r: RunId)
    requires d.db.Some? && HeadStands(d) && AlwaysRealised(d) && Undoes(d, r)
    ensures MatchesHead(d, d.backups[r])
  {
    hide Pass, RollbackVersionAgrees, Agreed;
    var journals, receipts := SomePassEndsIn(d, r);
    assert Realised(d, Pass(d, journals, receipts).0);
    if HeadPending(d) && d.backups[r] != d.db.value.live {
      var s := d.db.value.run.value;
      var js, rs := SomePassForgets(d, r, s);
      assert false;
    }
  }

  /** All or nothing over every history, whatever locks it released: a recovery pass
      realises what the database names, in all listing orders, if and only if every
      unfinished swap that it takes back has in its backup what the database names. */
  lemma RealisesDatabaseIff(ops: seq<Op>, tree: Tree)
    requires Legal(ops, Fresh(tree))
    ensures var d := OnDisk(Exec(ops, Fresh(tree))); d.db.Some? && (AlwaysRealised(d) <==> Harmless(d))
  {
    var d := OnDisk(Exec(ops, Fresh(tree)));
    hide Legal, Exec, OnDisk, Pass, RecoverJournals, HeadStands, Inv, MatchesHead;
    FreshInv(tree);
    RunKeepsInv(ops, Fresh(tree));
    HeadStandsOnDisk(Exec(ops, Fresh(tree)));
    OnDiskTree(Exec(ops, Fresh(tree)));
    if Harmless(d) {
      forall journals, receipts | Listing(journals, d.journals.Keys) && Listing(receipts, d.receipts.Keys)
        ensures Realised(d, Pass(d, journals, receipts).0)
      {
        HarmlessIsRealised(ops, tree, journals, receipts);
      }
    }
    if AlwaysRealised(d) {
      forall r | Undoes(d, r) ensures MatchesHead(d, d.backups[r]) { RealisedIsHarmless(d, r); }
    }
  }

  /** While no lock is released over an unfinished swap, every pass realises what the database names. */
  lemma GuardedIsRealised(ops: seq<Op>, tree: Tree)
    requires Legal(ops, Fresh(tree)) && (forall op <- ops :: !op.ReleaseUnfinished?)
    ensures var d := OnDisk(Exec(ops, Fresh(tree))); d.db.Some? && AlwaysRealised(d)
  {
    var d := Exec(ops, Fresh(tree));
    hide Legal, Exec, Pass, Inv, Fate;
    FreshInv(tree);
    RunKeepsInv(ops, Fresh(tree));
    NothingOrphaned(ops, tree);
    GuardedRunsAreFaithful(ops, tree);
    RealisesDatabaseIff(ops, tree);
    forall r | Undoes(d, r) ensures MatchesHead(d, d.backups[r]) { GuardedBackup(d, r); }
  }

  lemma GuardedBackup(d: Disk, r: RunId)
    requires Inv(d) && Undoes(d, r) && Faithful(d)
    ensures MatchesHead(d, d.backups[r])
  {
    InvParts(d);
    UncommittedBase(d, r);
    hide AuditOk, OrphansOk;
  }

  lemma JustReleased(d: Disk, r: RunId)
    requires Inv(d) && Allowed(ReleaseUnfinished(r), d) && d.orphans == map[]
    ensures var e := Apply(ReleaseUnfinished(r), d);
            && e.lock.None? && e.db == d.db && e.orphans.Keys == {r}
            && Fate(d) == Some(e.orphans[r].journal.base)
  {
    UnfinishedReleaseDecides(d, r);
  }

  /** The release alone does no harm: a pass right after it realises what the database
      names.  It takes a later commit of other content to lose something. */
  lemma RightAfterIsRealised(ops: seq<Op>, tree: Tree, r: RunId)
    requires Legal(ops + [ReleaseUnfinished(r)], Fresh(tree)) && (forall op <- ops :: !op.ReleaseUnfinished?)
    ensures var d := OnDisk(Exec(ops + [ReleaseUnfinished(r)], Fresh(tree))); d.db.Some? && AlwaysRealised(d)
  {
    var all := ops + [ReleaseUnfinished(r)];
    assert all[..|ops|] == ops && all[..|all|] == all;
    var d, e := Exec(ops, Fresh(tree)), Exec(all, Fresh(tree));
    LegalAt(all, Fresh(tree), |ops|);
    hide Legal, Exec, Pass, Inv, Fate, Allowed, Apply;
    FreshInv(tree);
    RunKeepsInv(ops, Fresh(tree));
    RunKeepsInv(all, Fresh(tree));
    NothingOrphaned(ops, tree);
    GuardedRunsAreFaithful(ops, tree);
    JustReleased(d, r);
    UnlockedUndoesOrphans(e);
    OrphanIsUndone(e, r);
    OnDiskTree(e);
    hide OnDisk, Undoes;
    RealisesDatabaseIff(all, tree);
    assert Harmless(OnDisk(e));
  }
}
