/**
 A complete recovery pass over a reachable state in which every lock was released
 properly: it is all-or-nothing, it asks for manual repair exactly for stale open
 receipts, and repeating it converges after the second time.  Module
 `UnfinishedRelease` treats the histories in which a lock was not.
 */
module RecoveryPass {
  import opened Wrappers
  import opened Protocol
  import opened Runs
  import opened RecoveryPlan

  /** What any stretch of recovery leaves alone. */
  ghost predicate Onward(d: Disk, e: Disk) {
    && Inv(e) && Fate(e) == Fate(d)
    && e.lock == d.lock && e.db == d.db && e.permits == d.permits && e.swapped == d.swapped && e.orphans == d.orphans
    && e.journals.Keys == d.journals.Keys && e.receipts.Keys == d.receipts.Keys
    && (forall s <- d.journals :: PastCommit(e, s) <==> PastCommit(d, s))
    && (forall s <- d.journals :: TerminalState(d, s) ==> TerminalState(e, s))
    && (forall s <- d.receipts :: d.receipts[s].phase == Terminal ==> e.receipts[s] == d.receipts[s])
    && d.events <= e.events
    && (SettledHead(d) ==> SettledHead(e))
  }

  lemma OnwardTrans(d: Disk, e: Disk, f: Disk)
    requires Onward(d, e) && Onward(e, f)
    ensures Onward(d, f)
  {
    hide Inv, Fate, PastCommit, TerminalState;
  }

  lemma ClosedOnward(d: Disk, e: Disk, r: RunId)
    requires r in d.journals && Closed(d, e, r)
    ensures Onward(d, e)
  {
    hide Inv, Fate;
    forall s <- d.journals ensures PastCommit(e, s) <==> PastCommit(d, s) {
      if s == r {
        assert PastCommit(e, r) <==> InState(e, r, Acknowledged);
      }
    }
  }

  ghost predicate Untouched(d: Disk, e: Disk, r: RunId) {
    && (r in d.journals <==> r in e.journals) && (r in d.receipts <==> r in e.receipts)
    && (r in d.journals ==> e.journals[r] == d.journals[r])
    && (r in d.receipts ==> e.receipts[r] == d.receipts[r])
  }

  /** What a pass has done to a journal it has visited.  Only a receipt whose
      journal was still being prepared is left for the next pass. */
  ghost predicate Visited(d: Disk, e: Disk, r: RunId)
    requires r in d.journals
  {
    && TerminalState(e, r) && (InState(e, r, Acknowledged) <==> PastCommit(d, r))
    && (Owner(d, r) && InState(e, r, RolledBack) ==> SettledHead(e))
    && (r in d.receipts ==>
          && r in e.receipts
          && (e.receipts[r].phase != Terminal <==> d.receipts[r].phase != Terminal && InState(d, r, Preparing)))
  }

  /** What the journal part of a pass has done once it has visited `runs`. */
  ghost predicate JournalsClosed(d: Disk, e: Disk, runs: seq<RunId>) {
    && (forall r <- runs :: r in d.journals ==> Visited(d, e, r))
    && (forall r :: r !in runs || r !in d.journals ==> Untouched(d, e, r))
  }

  lemma VisitSelf(d: Disk, m: Disk, e: Disk, r: RunId)
    requires Onward(d, m) && r in d.journals && Untouched(d, m, r) && Closed(m, e, r)
    ensures Visited(d, e, r)
  {
    hide Inv, Fate, PastCommit;
    assert PastCommit(m, r) <==> PastCommit(d, r);
  }

  lemma VisitOther(d: Disk, m: Disk, e: Disk, r: RunId, s: RunId)
    requires Onward(d, m) && Closed(m, e, r) && s != r
    ensures s in d.journals && Visited(d, m, s) ==> Visited(d, e, s)
    ensures Untouched(d, m, s) ==> Untouched(d, e, s)
  {
    hide Inv, Fate, PastCommit;
  }

  lemma VisitNext(d: Disk, m: Disk, e: Disk, runs: seq<RunId>, r: RunId)
    requires Onward(d, m) && JournalsClosed(d, m, runs)
    requires r in d.journals && r in m.journals && r !in runs && Closed(m, e, r)
    ensures Onward(d, e) && JournalsClosed(d, e, runs + [r])
  {
    hide Closed, Visited, Untouched, Onward;
    ClosedOnward(m, e, r);
    OnwardTrans(d, m, e);
    VisitSelf(d, m, e, r);
    forall s | s in runs && s in d.journals ensures Visited(d, e, s) { VisitOther(d, m, e, r, s); }
    forall s | s !in runs + [r] || s !in d.journals ensures Untouched(d, e, s) { VisitOther(d, m, e, r, s); }
  }

  lemma SkipNext(d: Disk, m: Disk, runs: seq<RunId>, r: RunId)
    requires JournalsClosed(d, m, runs) && r !in d.journals
    ensures JournalsClosed(d, m, runs + [r])
  {
    hide Visited, Untouched;
  }

  predicate Distinct(runs: seq<RunId>) { forall i, k :: 0 <= i < k < |runs| ==> runs[i] != runs[k] }

  lemma {:induction false} RecoverJournalsCloses(d: Disk, runs: seq<RunId>)
    requires Inv(d) && Distinct(runs)
    ensures var (e, verdicts) := RecoverJournals(d, runs);
            Onward(d, e) && JournalsClosed(d, e, runs) && ManualIntervention !in verdicts
  {
    hide Inv, Fate, PastCommit, TerminalState, RecoverJournal, Closed, JournalsClosed;
    if runs == [] {
      assert JournalsClosed(d, d, runs) by { assert Onward(d, d); NothingClosed(d); }
    } else {
      var init, r := runs[..|runs| - 1], runs[|runs| - 1];
      RecoverJournalsCloses(d, init);
      var m := RecoverJournals(d, init).0;
      assert runs == init + [r];
      if r in m.journals {
        RecoverJournalCloses(m, r);
        VisitNext(d, m, RecoverJournal(m, r).0, init, r);
      } else {
        SkipNext(d, m, init, r);
      }
    }
  }

  lemma NothingClosed(d: Disk)
    ensures JournalsClosed(d, d, [])
  {
  }

  // ------------------------------------------------- receipts without a journal

  /** While its run holds the lock, a promotion receipt that no journal accounts for
      finds the live tree equal to the base it was written on. */
  lemma PendingReceiptBase(d: Disk, r: RunId)
    requires Inv(d) && r in d.receipts && d.receipts[r].phase == PendingPromotion && r !in d.journals && Owner(d, r)
    ensures d.persistent == Some(d.receipts[r].base)
  {
    assert ReceiptOk(d, r);
  }

  /** A promotion receipt without a journal, on another tree than the live one. */
  predicate Unclaimed(d: Disk, r: RunId) {
    r in d.receipts && d.receipts[r].phase == PendingPromotion && r !in d.journals && d.persistent != Some(d.receipts[r].base)
  }

  /** No promotion receipt of this run is left that recovery could still dispose of. */
  predicate Swept(d: Disk, r: RunId) {
    r in d.receipts ==> d.receipts[r].phase != PendingPromotion || r in d.journals || Unclaimed(d, r)
  }

  lemma RecoverReceiptKeeps(d: Disk, r: RunId)
    requires Inv(d) && r in d.receipts
    ensures var (e, verdict) := RecoverReceipt(d, r);
            && Kept(d, e, r) && SameButAudit(d, e) && (verdict == Some(ManualIntervention) <==> Unclaimed(d, r))
            && (e.receipts[r] == d.receipts[r] || (r !in d.journals && e.receipts[r].phase == Terminal && !Unclaimed(d, r)))
            && Swept(e, r)
  {
    var rc := d.receipts[r];
    if rc.phase != PendingPromotion || r in d.journals || d.persistent != Some(rc.base) {
      hide Inv;
      KeptSame(d, r);
    } else {
      hide Inv, Kept, MarkReceiptRolledBack;
      MarkReceiptRolledBackKeeps(d, r, rc.base);
    }
  }

  /** What the receipt part of a pass has done once it has visited `runs`. */
  ghost predicate ReceiptsSwept(d: Disk, e: Disk, runs: seq<RunId>) {
    && Onward(d, e) && SameButAudit(d, e)
    && (forall r <- runs :: Swept(e, r))
    && (forall r <- d.receipts ::
          e.receipts[r] == d.receipts[r] || (r !in d.journals && e.receipts[r].phase == Terminal && !Unclaimed(d, r)))
  }

  lemma UnclaimedStays(d: Disk, m: Disk, runs: seq<RunId>, r: RunId)
    requires ReceiptsSwept(d, m, runs)
    ensures Unclaimed(m, r) <==> Unclaimed(d, r)
  {
    hide Inv, Fate, Swept;
  }

  lemma KeptAuditOnward(d: Disk, e: Disk, r: RunId)
    requires Kept(d, e, r) && SameButAudit(d, e)
    ensures Onward(d, e)
  {
    hide Inv, Fate;
  }

  lemma SweepNext(d: Disk, m: Disk, e: Disk, runs: seq<RunId>, r: RunId)
    requires ReceiptsSwept(d, m, runs) && r in m.receipts
    requires Kept(m, e, r) && SameButAudit(m, e) && Swept(e, r)
    requires e.receipts[r] == m.receipts[r] || (r !in m.journals && e.receipts[r].phase == Terminal && !Unclaimed(m, r))
    ensures ReceiptsSwept(d, e, runs + [r])
  {
    hide Inv, Fate;
    KeptAuditOnward(m, e, r);
    OnwardTrans(d, m, e);
    UnclaimedStays(d, m, runs, r);
    hide Onward;
    forall s <- runs ensures Swept(e, s) { assert Swept(m, s); }
  }

  lemma {:induction false} RecoverReceiptsSweeps(d: Disk, runs: seq<RunId>)
    requires Inv(d)
    ensures var (e, verdicts) := RecoverReceipts(d, runs);
            ReceiptsSwept(d, e, runs) && (ManualIntervention in verdicts <==> exists r <- runs :: Unclaimed(d, r))
  {
    hide Inv, Fate, RecoverReceipt, Kept, Swept, Unclaimed;
    if runs == [] {
      assert Onward(d, d);
    } else {
      var init, r := runs[..|runs| - 1], runs[|runs| - 1];
      RecoverReceiptsSweeps(d, init);
      var m := RecoverReceipts(d, init).0;
      assert runs == init + [r];
      if r in m.receipts {
        assert Inv(m);
        RecoverReceiptKeeps(m, r);
        UnclaimedStays(d, m, init, r);
        SweepNext(d, m, RecoverReceipt(m, r).0, init, r);
      } else {
        SweptAbsent(m, r);
        SweptAbsent(d, r);
      }
    }
  }

  lemma SweptAbsent(d: Disk, r: RunId)
    requires r !in d.receipts
    ensures Swept(d, r) && !Unclaimed(d, r)
  {
  }

  // ------------------------------------------------------------ the whole pass

  lemma StagingInv(d: Disk)
    requires Inv(d)
    ensures Inv(d.(staging := map[]))
  {
    var e := d.(staging := map[]);
    hide TreesOk, JournalsOk, OrphansOk, VersionsOk, AuditOk;
    TreesSame(d, e);
    JournalsSame(d, e);
    OrphansSame(d, e);
    VersionsSame(d, e);
    AuditSame(d, e);
  }

  lemma StagingIsInert(d: Disk)
    requires Inv(d)
    ensures Onward(d, d.(staging := map[])) && Inv(d.(staging := map[]))
  {
    hide Inv;
    StagingInv(d);
  }

  /** A closed transaction has its outcome at the live path, and no backup. */
  lemma ClosedRealizesFate(d: Disk)
    requires Inv(d) && (d.lock.Some? && d.lock.value.run in d.journals ==> TerminalState(d, d.lock.value.run))
    ensures d.persistent == Fate(d) && d.persistent.Some? && d.backups == map[]
  {
    hide AuditOk, JournalsOk;
  }

  /** What a complete pass makes of a state the code can have crashed in. */
  ghost predicate Recovered(d: Disk, e: Disk) {
    && Onward(d, e) && e.persistent == Fate(d) && e.persistent.Some?
    && e.backups == map[] && e.staging == map[] && SettledHead(e)
    && (forall r <- d.journals :: Visited(d, e, r))
    && (forall r <- d.receipts :: Swept(e, r))
  }

  lemma SettledUnlessStaged(d: Disk)
    requires Inv(d) && (d.lock.Some? ==> !InState(d, d.lock.value.run, PendingDb))
    requires d.lock.Some? && InState(d, d.lock.value.run, RolledBack) ==> SettledHead(d)
    ensures SettledHead(d)
  {
    hide TreesOk, JournalsOk, AuditOk;
  }

  lemma VisitedStays(d: Disk, d1: Disk, e: Disk, r: RunId)
    requires r in d.journals && Visited(d, d1, r)
    requires e.journals == d1.journals && e.receipts.Keys == d1.receipts.Keys && e.head == d1.head && e.db == d1.db
    requires r in d1.receipts ==> e.receipts[r] == d1.receipts[r]
    ensures Visited(d, e, r)
  {
    hide PastCommit;
  }

  lemma VisitedOutcome(d: Disk, e: Disk)
    requires Onward(d, e) && (forall r <- d.journals :: Visited(d, e, r))
    ensures SettledHead(e) && e.persistent == Fate(d) && e.persistent.Some? && e.backups == map[]
  {
    hide Inv, Fate, PastCommit;
    if d.lock.Some? && d.lock.value.run in d.journals { assert Visited(d, e, d.lock.value.run); }
    ClosedRealizesFate(e);
    SettledUnlessStaged(e);
  }

  lemma PassParts(d: Disk, d1: Disk, d2: Disk, journals: seq<RunId>, receipts: seq<RunId>)
    requires Onward(d, d1) && JournalsClosed(d, d1, journals) && ReceiptsSwept(d1, d2, receipts)
    requires Listing(journals, d.journals.Keys) && Listing(receipts, d.receipts.Keys)
    requires Onward(d2, d2.(staging := map[]))
    ensures Recovered(d, d2.(staging := map[]))
  {
    var e := d2.(staging := map[]);
    hide Visited, Untouched, Inv, Fate, TerminalState, PastCommit;
    OnwardTrans(d, d1, d2);
    OnwardTrans(d, d2, e);
    forall r <- d.journals ensures Visited(d, e, r) { VisitedStays(d, d1, e, r); }
    forall r <- d.receipts ensures Swept(e, r) { assert Swept(d2, r); }
    hide Onward, Swept;
    VisitedOutcome(d, e);
  }

  /** An open promotion receipt without a journal whose base is no longer the outcome. */
  predicate Stale(d: Disk, r: RunId) {
    r in d.receipts && d.receipts[r].phase == PendingPromotion && r !in d.journals && Fate(d) != Some(d.receipts[r].base)
  }

  lemma StaleIffUnclaimed(d: Disk, d1: Disk, journals: seq<RunId>, r: RunId)
    requires Onward(d, d1) && JournalsClosed(d, d1, journals) && Listing(journals, d.journals.Keys)
    ensures Unclaimed(d1, r) <==> Stale(d, r)
  {
    hide Inv, Fate, PastCommit, TerminalState;
    if d1.lock.Some? && d1.lock.value.run in d1.journals { assert Visited(d, d1, d1.lock.value.run); }
    ClosedRealizesFate(d1);
    if r !in d.journals { assert Untouched(d, d1, r); }
  }

  /** A complete pass realises the outcome, closes everything it can, and asks for
      manual repair exactly when a stale receipt is open. */
  lemma PassRecovers(d: Disk, journals: seq<RunId>, receipts: seq<RunId>)
    requires Inv(d) && Listing(journals, d.journals.Keys) && Listing(receipts, d.receipts.Keys)
    ensures var (e, verdicts) := Pass(d, journals, receipts);
            Recovered(d, e) && (ManualIntervention in verdicts <==> exists r <- d.receipts :: Stale(d, r))
  {
    hide Inv, Fate, Closed, Swept, Visited, Untouched, Onward, TerminalState, RecoverJournals, RecoverReceipts, Unclaimed, Stale;
    RecoverJournalsCloses(d, journals);
    var d1 := RecoverJournals(d, journals).0;
    assert Inv(d1) by { OnwardInv(d, d1); }
    RecoverReceiptsSweeps(d1, receipts);
    var d2 := RecoverReceipts(d1, receipts).0;
    assert Inv(d2) by { OnwardInv(d1, d2); }
    StagingIsInert(d2);
    PassParts(d, d1, d2, journals, receipts);
    forall r ensures Unclaimed(d1, r) <==> Stale(d, r) { StaleIffUnclaimed(d, d1, journals, r); }
    forall r | Stale(d, r) ensures r in d.receipts { assert r in d.receipts by { StaleIsOpen(d, r); } }
  }

  lemma StaleIsOpen(d: Disk, r: RunId)
    requires Stale(d, r)
    ensures r in d.receipts
  {
  }

  lemma OnwardInv(d: Disk, e: Disk)
    requires Onward(d, e)
    ensures Inv(e)
  {
    hide Inv, Fate;
  }

  // --------------------------------------------------------------- main results

  /** All or nothing.  Kill the protocol after any effect of any history that releases
      no lock over an unfinished swap; one complete pass, over any listing orders, leaves
      exactly the admitted base or exactly the journalled target at the live path, the
      target if and only if the database head names the run under the lock, and in any
      case the content the database head names.  Every journal is closed, as acknowledged
      exactly past its commit point; no backup or staging tree remains, and the version
      index and the database agree on the head.  Manual intervention is asked for exactly
      when an open receipt was left behind on a base that is no longer the outcome. */
  lemma AllOrNothing(ops: seq<Op>, tree: Tree, journals: seq<RunId>, receipts: seq<RunId>)
    requires Legal(ops, Fresh(tree)) && (forall op <- ops :: !op.ReleaseUnfinished?)
    requires var d := OnDisk(Exec(ops, Fresh(tree)));
             Listing(journals, d.journals.Keys) && Listing(receipts, d.receipts.Keys)
    ensures var d := OnDisk(Exec(ops, Fresh(tree)));
            var (e, verdicts) := Pass(d, journals, receipts);
            && (d.lock.None? ==> e.persistent == d.persistent && e.persistent.Some?)
            && (d.lock.Some? ==>
                  var r := d.lock.value.run;
                  e.persistent == Some(if r in d.journals && DbNames(d, r) then d.journals[r].target else d.lock.value.tree))
            && e.db == d.db && e.db.Some? && e.persistent.value.versioned == e.db.value.live.versioned
            && e.journals.Keys == d.journals.Keys
            && (forall r <- d.journals :: e.journals[r].state == if PastCommit(d, r) then Acknowledged else RolledBack)
            && e.backups == map[] && e.staging == map[] && SettledHead(e)
            && (ManualIntervention in verdicts <==> exists r <- d.receipts :: Stale(d, r))
  {
    var d := Exec(ops, Fresh(tree));
    hide Inv, Legal, Exec, Fresh, Pass, PastCommit, Stale;
    FreshInv(tree);
    RunKeepsInv(ops, Fresh(tree));
    NothingOrphaned(ops, tree);
    GuardedRunsAreFaithful(ops, tree);
    PassRecovers(d, journals, receipts);
    assert d.lock.None? ==> d.persistent.Some? by { if d.lock.None? { UnlockedIsWhole(d); } }
  }

  lemma UnlockedIsWhole(d: Disk)
    requires Inv(d) && d.lock.None?
    ensures d.persistent.Some?
  {
  }

  /** Recovery may itself be killed and restarted any number of times, and the
      effects of the dead attempts may even interleave with late bookkeeping: as
      long as nothing commits to the database meanwhile, the final pass ends in
      the same tree as an undisturbed one. */
  lemma RestartedRecovery(ops: seq<Op>, more: seq<Op>, tree: Tree,
                          journals: seq<RunId>, receipts: seq<RunId>, journals': seq<RunId>, receipts': seq<RunId>)
    requires Legal(ops, Fresh(tree)) && (forall op <- ops :: !op.ReleaseUnfinished?)
    requires Legal(more, Exec(ops, Fresh(tree))) && (forall op <- more :: !Decides(op))
    requires var d, e := OnDisk(Exec(ops, Fresh(tree))), OnDisk(Exec(ops + more, Fresh(tree)));
             && Listing(journals, d.journals.Keys) && Listing(receipts, d.receipts.Keys)
             && Listing(journals', e.journals.Keys) && Listing(receipts', e.receipts.Keys)
    ensures Pass(OnDisk(Exec(ops + more, Fresh(tree))), journals', receipts').0.persistent
            == Pass(OnDisk(Exec(ops, Fresh(tree))), journals, receipts).0.persistent
  {
    var d, e := Exec(ops, Fresh(tree)), Exec(ops + more, Fresh(tree));
    assert forall op <- ops + more :: !op.ReleaseUnfinished?;
    hide Inv, Legal, Exec, Fresh, Pass, Fate, Allowed, Apply, Listing, Decides, OnDisk;
    NothingOrphaned(ops, tree);
    FreshInv(tree);
    RunKeepsInv(ops, Fresh(tree));
    LegalAppend(ops, more, Fresh(tree));
    NothingOrphaned(ops + more, tree);
    FateOfRun(more, d);
    RunKeepsInv(more, d);
    PassRecovers(d, journals, receipts);
    PassRecovers(e, journals', receipts');
  }

  // ---------------------------------------------------------------- convergence

  /** Nothing is left to do for this journal. */
  ghost predicate Quiet(d: Disk, r: RunId)
    requires r in d.journals
  {
    && TerminalState(d, r)
    && (r in d.receipts ==> d.receipts[r].phase == Terminal)
    && (InState(d, r, RolledBack) ==>
          !HeadIsRun(d, r) && exists f <- d.events :: SameEvent(RolledBackEvent(d, r, d.journals[r].base), f))
    && (InState(d, r, Acknowledged) && d.journals[r].kind == Promotion ==>
          exists f <- d.events :: SameEvent(AcknowledgedEvent(d, r, Some(d.journals[r].target)), f))
  }

  lemma QuietIsFixed(d: Disk, r: RunId)
    requires r in d.journals && Quiet(d, r)
    ensures RecoverJournal(d, r).0 == d
  {
  }

  lemma SettledNotRolledBack(d: Disk, r: RunId)
    requires Inv(d) && InState(d, r, RolledBack) && SettledHead(d)
    ensures !HeadIsRun(d, r)
  {
    hide TreesOk, JournalsOk, AuditOk;
  }

  lemma QuietAfterRollback(d: Disk, r: RunId)
    requires Inv(d) && InState(d, r, RolledBack)
    ensures var e := RecoverJournal(d, r).0;
            Kept(d, e, r) && e.journals == d.journals && Quiet(e, r)
  {
    var m := Revert(d, r);
    var e := MarkReceiptRolledBack(m, r, d.journals[r].base);
    RevertKeeps(d, r);
    hide Inv, Fate, OnlyRun, Revert, MarkReceiptRolledBack;
    MarkReceiptRolledBackKeeps(m, r, d.journals[r].base);
    KeptTrans(d, m, e, r);
    if HeadIsRun(d, r) { SettledNotRolledBack(m, r); }
  }

  lemma QuietAfterAcknowledgement(d: Disk, r: RunId)
    requires Inv(d) && InState(d, r, Acknowledged)
    ensures var e := RecoverJournal(d, r).0;
            Kept(d, e, r) && e.journals == d.journals && Quiet(e, r)
  {
    hide Inv, Fate, OnlyRun, UpdateRecoveredReceipt;
    if d.journals[r].kind == Promotion {
      UpdateRecoveredReceiptKeeps(d, r, None, Some(d.journals[r].target));
    } else {
      KeptSame(d, r);
      if r in d.receipts { AcknowledgedRollbackReceipt(d, r); }
    }
  }

  lemma QuietStays(d: Disk, e: Disk, r: RunId, s: RunId)
    requires Inv(d) && r in d.journals && Quiet(d, r) && Kept(d, e, s) && r != s && e.journals == d.journals
    ensures Quiet(e, r)
  {
    hide Inv, Fate;
    if SettledHead(e) && InState(e, r, RolledBack) { SettledNotRolledBack(e, r); }
    forall f <- d.events ensures f in e.events {}
  }

  ghost predicate AllTerminal(d: Disk) { forall r <- d.journals :: TerminalState(d, r) }

  ghost predicate QuietOn(d: Disk, runs: seq<RunId>) { forall r <- runs :: r in d.journals ==> Quiet(d, r) }

  lemma QuietVisit(d: Disk, r: RunId)
    requires Inv(d) && r in d.journals && TerminalState(d, r)
    ensures var e := RecoverJournal(d, r).0;
            Kept(d, e, r) && e.journals == d.journals && Quiet(e, r)
  {
    hide Inv, Kept, Quiet, RecoverJournal;
    if InState(d, r, Acknowledged) {
      QuietAfterAcknowledgement(d, r);
    } else {
      QuietAfterRollback(d, r);
    }
  }

  lemma {:induction false} SecondVisitQuiets(d: Disk, runs: seq<RunId>)
    requires Inv(d) && AllTerminal(d)
    ensures var e := RecoverJournals(d, runs).0;
            Inv(e) && e.journals == d.journals && e.receipts.Keys == d.receipts.Keys && QuietOn(e, runs)
  {
    hide Inv, RecoverJournal, Quiet, Fate, OnlyRun, TerminalState;
    if runs != [] {
      var init, r := runs[..|runs| - 1], runs[|runs| - 1];
      SecondVisitQuiets(d, init);
      var m := RecoverJournals(d, init).0;
      assert runs == init + [r];
      if r in m.journals {
        assert TerminalState(m, r) by { TerminalSame(d, m, r); }
        QuietVisit(m, r);
        var e := RecoverJournal(m, r).0;
        forall s <- runs | s in e.journals ensures Quiet(e, s) {
          if s != r { QuietStays(m, e, s, r); }
        }
        assert e.receipts.Keys == m.receipts.Keys by { KeptKeys(m, e, r); }
      }
    }
  }

  lemma TerminalSame(d: Disk, e: Disk, r: RunId)
    requires r in d.journals && TerminalState(d, r) && e.journals == d.journals
    ensures TerminalState(e, r)
  {
  }

  lemma KeptKeys(d: Disk, e: Disk, r: RunId)
    requires Kept(d, e, r)
    ensures e.receipts.Keys == d.receipts.Keys
  {
    hide Inv, Fate;
  }

  ghost predicate QuietEverywhere(d: Disk) { forall r <- d.journals :: Quiet(d, r) }

  lemma QuietSweep(d: Disk, r: RunId)
    requires Inv(d) && r in d.receipts && QuietEverywhere(d)
    ensures QuietEverywhere(RecoverReceipt(d, r).0)
  {
    var e := RecoverReceipt(d, r).0;
    if r !in d.journals {
      hide Inv, Quiet, RecoverReceipt, Kept;
      RecoverReceiptKeeps(d, r);
      forall s <- e.journals ensures Quiet(e, s) { QuietStays(d, e, s, r); }
    }
  }

  lemma {:induction false} QuietSweeps(d: Disk, runs: seq<RunId>)
    requires Inv(d) && QuietEverywhere(d)
    ensures QuietEverywhere(RecoverReceipts(d, runs).0)
  {
    hide Inv, RecoverReceipt, QuietEverywhere;
    if runs != [] {
      var init, r := runs[..|runs| - 1], runs[|runs| - 1];
      QuietSweeps(d, init);
      RecoverReceiptsSweeps(d, init);
      var m := RecoverReceipts(d, init).0;
      assert Inv(m) by { OnwardInv(d, m); }
      if r in m.receipts { QuietSweep(m, r); }
    }
  }

  lemma QuietStaging(d: Disk)
    requires QuietEverywhere(d)
    ensures QuietEverywhere(d.(staging := map[]))
  {
    var e := d.(staging := map[]);
    forall r <- e.journals ensures Quiet(e, r) { assert Quiet(d, r); }
  }

  lemma {:induction false} QuietJournalsFixed(d: Disk, runs: seq<RunId>)
    requires QuietEverywhere(d)
    ensures RecoverJournals(d, runs).0 == d
  {
    hide Quiet, RecoverJournal;
    if runs != [] {
      QuietJournalsFixed(d, runs[..|runs| - 1]);
      if runs[|runs| - 1] in d.journals { QuietIsFixed(d, runs[|runs| - 1]); }
    }
  }

  lemma {:induction false} SweptReceiptsFixed(d: Disk, runs: seq<RunId>)
    requires forall r <- d.receipts :: Swept(d, r)
    ensures RecoverReceipts(d, runs).0 == d
  {
    if runs != [] {
      SweptReceiptsFixed(d, runs[..|runs| - 1]);
      if runs[|runs| - 1] in d.receipts { assert Swept(d, runs[|runs| - 1]); }
    }
  }

  /** A state recovery no longer changes, whatever the listing orders. */
  ghost predicate AtRest(d: Disk) {
    QuietEverywhere(d) && (forall r <- d.receipts :: Swept(d, r)) && d.staging == map[]
  }

  lemma RestIsFixed(d: Disk, journals: seq<RunId>, receipts: seq<RunId>)
    requires AtRest(d)
    ensures Pass(d, journals, receipts).0 == d
  {
    hide QuietEverywhere, Swept, RecoverJournals, RecoverReceipts;
    QuietJournalsFixed(d, journals);
    SweptReceiptsFixed(d, receipts);
  }

  lemma SecondPassRests(d: Disk, journals: seq<RunId>, receipts: seq<RunId>)
    requires Inv(d) && AllTerminal(d) && Listing(journals, d.journals.Keys) && Listing(receipts, d.receipts.Keys)
    ensures AtRest(Pass(d, journals, receipts).0)
  {
    hide Inv, Fate, Quiet, Swept, Visited, Onward, TerminalState, RecoverJournals, RecoverReceipts, AllTerminal;
    SecondVisitQuiets(d, journals);
    var d1 := RecoverJournals(d, journals).0;
    assert QuietEverywhere(d1);
    QuietSweeps(d1, receipts);
    QuietStaging(RecoverReceipts(d1, receipts).0);
    PassRecovers(d, journals, receipts);
    RecoverySweeps(d, Pass(d, journals, receipts).0);
  }

  lemma RecoverySweeps(d: Disk, e: Disk)
    requires Recovered(d, e)
    ensures Inv(e) && e.staging == map[] && AllTerminal(e)
    ensures e.journals.Keys == d.journals.Keys && e.receipts.Keys == d.receipts.Keys
    ensures forall r <- e.receipts :: Swept(e, r)
  {
    hide Inv, Fate, PastCommit, Swept, TerminalState;
    forall r <- e.journals ensures TerminalState(e, r) { assert Visited(d, e, r); }
  }

  /** Recovery converges: from any reachable state without an orphaned swap the durable state after two
      complete passes is a fixpoint of every further pass, in any listing orders. */
  lemma Converges(d: Disk, js: seq<RunId>, rs: seq<RunId>, js': seq<RunId>, rs': seq<RunId>, js'': seq<RunId>, rs'': seq<RunId>)
    requires Inv(d) && Listing(js, d.journals.Keys) && Listing(rs, d.receipts.Keys)
    requires Listing(js', d.journals.Keys) && Listing(rs', d.receipts.Keys)
    ensures var settled := Pass(Pass(d, js, rs).0, js', rs').0;
            Pass(settled, js'', rs'').0 == settled
  {
    hide Inv, Pass, Recovered, AllTerminal, AtRest, Listing;
    PassRecovers(d, js, rs);
    var e := Pass(d, js, rs).0;
    RecoverySweeps(d, e);
    SecondPassRests(e, js', rs');
    RestIsFixed(Pass(e, js', rs').0, js'', rs'');
  }

  /** Exactly which promotions need the second pass: after the first, the receipt of
      a journalled run is still open if and only if its journal was being prepared. */
  lemma FirstPassLeaves(d: Disk, journals: seq<RunId>, receipts: seq<RunId>, r: RunId)
    requires Inv(d) && Listing(journals, d.journals.Keys) && Listing(receipts, d.receipts.Keys)
    requires r in d.journals && r in d.receipts
    ensures var e := Pass(d, journals, receipts).0;
            && r in e.receipts
            && (e.receipts[r].phase != Terminal <==> d.receipts[r].phase != Terminal && InState(d, r, Preparing))
            && (d.receipts[r].phase == Terminal ==> e.receipts[r] == d.receipts[r])
  {
    hide Inv, Pass, Fate, PastCommit, Swept, Listing;
    PassRecovers(d, journals, receipts);
    assert Visited(d, Pass(d, journals, receipts).0, r);
  }
}
