/**
 Startup recovery as a function of the durable state it finds: what one complete,
 undisturbed pass does to each journal and receipt of an agent.  Method
 `StartupRecovery.Recover` performs the same steps one at a time under faults.
 */
module RecoveryPlan {
  import opened Wrappers
  import opened Protocol
  import opened Runs

  datatype Verdict = AcknowledgedRun | RolledBackRun | Cleaned | ManualIntervention

  /** Append-once: an event that repeats an earlier one is dropped. */
  function Note(d: Disk, e: Event): Disk {
    if exists f <- d.events :: SameEvent(e, f) then d else Apply(AppendEvent(e), d)
  }

  function DecisionOf(d: Disk, r: RunId): Option<Decision> {
    if r in d.receipts then Some(d.receipts[r].decision) else None
  }

  function RecoveredReceipt(rc: Receipt, version: Option<VersionId>, final: Option<Tree>): Receipt {
    rc.(phase := Terminal,
        version := if version.Some? then version else rc.version,
        final := if final.Some? then final.value else rc.final)
  }

  function AcknowledgedEvent(d: Disk, r: RunId, final: Option<Tree>): Event {
    Event(r, RecoveryAcknowledged, DecisionOf(d, r),
          if final.Some? then final else if r in d.receipts then Some(d.receipts[r].final) else None)
  }

  function UpdateRecoveredReceipt(d: Disk, r: RunId, version: Option<VersionId>, final: Option<Tree>): Disk {
    var noted := Note(d, AcknowledgedEvent(d, r, final));
    if r in d.receipts && d.receipts[r].phase != Terminal then
      Apply(PutReceipt(r, RecoveredReceipt(d.receipts[r], version, final)), noted)
    else noted
  }

  function RolledBackReceipt(rc: Receipt, base: Tree): Receipt {
    Receipt(Terminal, Aborted, rc.base, base, None, false, if rc.resumed then rc.epoch + 1 else rc.epoch)
  }

  function RolledBackEvent(d: Disk, r: RunId, base: Tree): Event {
    Event(r, RecoveryRolledBack, DecisionOf(d, r), Some(base))
  }

  function MarkReceiptRolledBack(d: Disk, r: RunId, base: Tree): Disk {
    var noted := Note(d, RolledBackEvent(d, r, base));
    if r in d.receipts && d.receipts[r].phase != Terminal then
      Apply(PutReceipt(r, RolledBackReceipt(d.receipts[r], base)), noted)
    else noted
  }

  function Revert(d: Disk, r: RunId): Disk {
    if HeadIsRun(d, r) && d.versions[d.head.value].kind != Initial then Apply(RevertVersion(r), d) else d
  }

  function Mark(d: Disk, r: RunId, s: JournalState): Disk {
    if r in d.journals then Apply(PutJournal(r, d.journals[r].(state := s)), d) else d
  }

  /** The backup put back at the live path; false when its hash is not the base. */
  function RestoreBackup(d: Disk, r: RunId): (Disk, bool)
    requires r in d.journals
  {
    var moved :=
      if r in d.backups then
        Apply(BackupToPersistent(r), if d.persistent.Some? then Apply(PersistentToFailed(r), d) else d)
      else d;
    if moved.persistent == Some(d.journals[r].base) then (Mark(Apply(RemoveStaging(r), moved), r, RolledBack), true)
    else (moved, false)
  }

  predicate DatabaseCommitted(d: Disk, r: RunId)
    requires r in d.journals
  {
    && HeadIsRun(d, r) && d.versions[d.head.value].kind == Expected(d.journals[r].kind)
    && d.db == Some(DbHead(d.head.value, d.journals[r].target, Some(r), Expected(d.journals[r].kind)))
  }

  /** The journal waits for the database, and version, database head and live tree all agree with it. */
  predicate Agreed(d: Disk, r: RunId)
    requires r in d.journals
  {
    d.journals[r].state == PendingDb && DatabaseCommitted(d, r) && d.persistent == Some(d.journals[r].target)
  }

  predicate RollbackVersionAgrees(d: Disk, r: RunId)
    requires r in d.journals && DatabaseCommitted(d, r)
  {
    var j, v := d.journals[r], d.versions[d.head.value];
    j.kind == Rollback ==>
      && v.rollbackTarget == j.targetVersion && j.targetVersion.Some? && j.targetVersion.value in d.versions
      && v.snapshot == d.versions[j.targetVersion.value].snapshot
  }

  /** One journal of the pass, branch by branch. */
  function RecoverJournal(d: Disk, r: RunId): (Disk, Verdict)
    requires r in d.journals
  {
    var j := d.journals[r];
    if j.state == Acknowledged then
      (if j.kind == Promotion then UpdateRecoveredReceipt(d, r, None, Some(j.target)) else d, AcknowledgedRun)
    else if j.state == RolledBack then (MarkReceiptRolledBack(Revert(d, r), r, j.base), RolledBackRun)
    else if j.state == Preparing then (Mark(Apply(RemoveStaging(r), d), r, RolledBack), Cleaned)
    else if Agreed(d, r) then
      if !RollbackVersionAgrees(d, r) then (d, ManualIntervention)
      else
        var acknowledged := Mark(Apply(RemoveBackup(r), d), r, Acknowledged);
        (if j.kind == Promotion then UpdateRecoveredReceipt(acknowledged, r, d.head, None) else acknowledged,
         AcknowledgedRun)
    else if r in d.backups then
      var (restored, ok) := RestoreBackup(d, r);
      if ok then (MarkReceiptRolledBack(Revert(restored, r), r, j.base), RolledBackRun)
      else (restored, ManualIntervention)
    else if d.persistent == Some(j.base) then
      (MarkReceiptRolledBack(Revert(Mark(d, r, RolledBack), r), r, j.base), RolledBackRun)
    else (d, ManualIntervention)
  }

  /** A receipt of the pass that no journal accounts for. */
  function RecoverReceipt(d: Disk, r: RunId): (Disk, Option<Verdict>)
    requires r in d.receipts
  {
    var rc := d.receipts[r];
    if rc.phase != PendingPromotion || r in d.journals then (d, None)
    else if d.persistent == Some(rc.base) then (MarkReceiptRolledBack(d, r, rc.base), Some(RolledBackRun))
    else (d, Some(ManualIntervention))
  }

  function RecoverJournals(d: Disk, runs: seq<RunId>): (Disk, seq<Verdict>) {
    if runs == [] then (d, [])
    else
      var (before, verdicts) := RecoverJournals(d, runs[..|runs| - 1]);
      var r := runs[|runs| - 1];
      if r !in before.journals then (before, verdicts)
      else
        var (after, verdict) := RecoverJournal(before, r);
        (after, verdicts + [verdict])
  }

  function RecoverReceipts(d: Disk, runs: seq<RunId>): (Disk, seq<Verdict>) {
    if runs == [] then (d, [])
    else
      var (before, verdicts) := RecoverReceipts(d, runs[..|runs| - 1]);
      var r := runs[|runs| - 1];
      if r !in before.receipts then (before, verdicts)
      else
        var (after, verdict) := RecoverReceipt(before, r);
        (after, if verdict.Some? then verdicts + [verdict.value] else verdicts)
  }

  /** A complete pass: every journal, every receipt, then the leftover staging trees. */
  function Pass(d: Disk, journals: seq<RunId>, receipts: seq<RunId>): (Disk, seq<Verdict>) {
    var (d1, v1) := RecoverJournals(d, journals);
    var (d2, v2) := RecoverReceipts(d1, receipts);
    (d2.(staging := map[]), v1 + v2)
  }

  /** A directory listing: each key once, in any order. */
  predicate Listing(runs: seq<RunId>, keys: set<RunId>) {
    && (forall r <- runs :: r in keys) && (forall r <- keys :: r in runs)
    && (forall i, k :: 0 <= i < k < |runs| ==> runs[i] != runs[k])
  }

  // ------------------------------------------------- what one journal becomes

  /** Only the records of one run differ. */
  ghost predicate OnlyRun(d: Disk, e: Disk, r: RunId) {
    && e.lock == d.lock && e.db == d.db && e.permits == d.permits && e.swapped == d.swapped && e.orphans == d.orphans
    && e.journals.Keys == d.journals.Keys
    && (forall s <- d.journals :: s != r ==> e.journals[s] == d.journals[s])
    && e.receipts.Keys == d.receipts.Keys
    && (forall s <- d.receipts :: s != r || d.receipts[s].phase == Terminal ==> e.receipts[s] == d.receipts[s])
    && d.events <= e.events
    && (forall i | |d.events| <= i < |e.events| :: e.events[i].run == r)
    && ((e.head == d.head && e.versions == d.versions) || SettledHead(e))
  }

  /** The version index names the version the database names. */
  predicate SettledHead(d: Disk) { d.db.Some? && d.head == Some(d.db.value.version) }

  /** What recovery leaves alone while it works on one run: the invariant, the
      outcome the crash already has, and everything that belongs to other runs. */
  ghost predicate Kept(d: Disk, e: Disk, r: RunId) {
    Inv(e) && Fate(e) == Fate(d) && OnlyRun(d, e, r)
  }

  ghost predicate SameButAudit(d: Disk, e: Disk) {
    e == d.(receipts := e.receipts, events := e.events)
  }

  /** The effects recovery applies on behalf of one run. */
  predicate OwnStep(op: Op, d: Disk, r: RunId) {
    || op in {RemoveStaging(r), PersistentToFailed(r), BackupToPersistent(r), RemoveBackup(r), RevertVersion(r)}
    || (op.PutJournal? && op.run == r && r in d.journals)
    || (op.PutReceipt? && op.run == r && r in d.receipts)
    || (op.AppendEvent? && op.event.run == r)
  }

  lemma InvParts(d: Disk)
    requires Inv(d)
    ensures TreesOk(d) && JournalsOk(d) && VersionsOk(d) && AuditOk(d)
  {
  }

  lemma RevertedHead(d: Disk, r: RunId)
    requires VersionsOk(d) && InState(d, r, RolledBack) && HeadIsRun(d, r)
    ensures d.versions[d.head.value].kind != Initial && SettledHead(Apply(RevertVersion(r), d))
  {
    assert VersionOk(d, d.head.value);
  }

  lemma RecordOnlyRun(op: Op, d: Disk, r: RunId)
    requires Allowed(op, d) && OwnStep(op, d, r) && (op.PutJournal? || op.PutReceipt?)
    ensures OnlyRun(d, Apply(op, d), r)
  {
    hide JournalStep;
  }

  lemma OwnStepOnlyRun(op: Op, d: Disk, r: RunId)
    requires VersionsOk(d) && Allowed(op, d) && OwnStep(op, d, r)
    ensures OnlyRun(d, Apply(op, d), r)
  {
    if op == RevertVersion(r) { RevertedHead(d, r); }
    assert op.RevertVersion? ==> op == RevertVersion(r);
    hide *;
    if op.PutJournal? || op.PutReceipt? {
      RecordOnlyRun(op, d, r);
    } else if op.AppendEvent? {
      EventOnlyRun(op, d, r);
    } else if op.RevertVersion? {
      RevertOnlyRun(d, r);
    } else {
      TreeOnlyRun(op, d, r);
    }
  }

  lemma EventOnlyRun(op: Op, d: Disk, r: RunId)
    requires OwnStep(op, d, r) && op.AppendEvent?
    ensures OnlyRun(d, Apply(op, d), r)
  {
  }

  lemma RevertOnlyRun(d: Disk, r: RunId)
    requires SettledHead(Apply(RevertVersion(r), d))
    ensures OnlyRun(d, Apply(RevertVersion(r), d), r)
  {
    RevertsOnly(d, r);
    hide Apply, HeadIsRun;
  }

  lemma TreeOnlyRun(op: Op, d: Disk, r: RunId)
    requires OwnStep(op, d, r) && !op.PutJournal? && !op.PutReceipt? && !op.AppendEvent? && !op.RevertVersion?
    ensures OnlyRun(d, Apply(op, d), r)
  {
    Writes(op, d);
    hide Apply;
  }

  lemma StepKept(op: Op, d: Disk, r: RunId)
    requires Inv(d) && Allowed(op, d) && OwnStep(op, d, r)
    ensures Kept(d, Apply(op, d), r) && Inv(Apply(op, d))
  {
    assert !Decides(op);
    OwnStepOnlyRun(op, d, r);
    hide Inv, Allowed, Fate, Apply, OwnStep, OnlyRun;
    StepKeepsInv(op, d);
    OnlyTheCommitDecides(op, d);
  }

  lemma OnlyRunTrans(d: Disk, e: Disk, f: Disk, r: RunId)
    requires OnlyRun(d, e, r) && OnlyRun(e, f, r)
    ensures OnlyRun(d, f, r)
  {
  }

  /** Kept is transitive along the steps of one run. */
  lemma KeptTrans(d: Disk, e: Disk, f: Disk, r: RunId)
    requires Kept(d, e, r) && Kept(e, f, r)
    ensures Kept(d, f, r)
  {
    hide Inv, Fate, OnlyRun;
    OnlyRunTrans(d, e, f, r);
  }

  lemma KeptSame(d: Disk, r: RunId)
    requires Inv(d)
    ensures Kept(d, d, r)
  {
    hide Inv, Fate;
  }

  lemma NoteKeeps(d: Disk, e: Event)
    requires Inv(d) && EventOk(d, e)
    ensures Kept(d, Note(d, e), e.run) && Inv(Note(d, e)) && Note(d, e) == d.(events := Note(d, e).events)
    ensures exists f <- Note(d, e).events :: SameEvent(e, f)
  {
    var n := Note(d, e);
    if exists f <- d.events :: SameEvent(e, f) {
      hide Inv;
      KeptSame(d, e.run);
    } else {
      hide Inv, Kept;
      StepKept(AppendEvent(e), d, e.run);
      assert n.events[|d.events|] == e && SameEvent(e, e);
    }
  }

  lemma PutReceiptKeeps(d: Disk, r: RunId, rc: Receipt)
    requires Inv(d) && r in d.receipts && d.receipts[r].phase != Terminal && ReceiptStep(d, r, rc)
    ensures Kept(d, Apply(PutReceipt(r, rc), d), r)
  {
    hide Inv, Kept, ReceiptStep;
    StepKept(PutReceipt(r, rc), d, r);
  }

  lemma AcknowledgedReceipt(d: Disk, r: RunId)
    requires AuditOk(d) && InState(d, r, Acknowledged) && r in d.receipts
    ensures d.receipts[r].decision == Committed && d.receipts[r].final == d.journals[r].target
  {
    assert ReceiptOk(d, r);
  }

  lemma UpdateRecoveredReceiptKeeps(d: Disk, r: RunId, version: Option<VersionId>, final: Option<Tree>)
    requires Inv(d) && InState(d, r, Acknowledged) && (final.Some? ==> final.value == d.journals[r].target)
    ensures var e := UpdateRecoveredReceipt(d, r, version, final);
            && Kept(d, e, r) && SameButAudit(d, e)
            && (r in e.receipts ==> e.receipts[r].phase == Terminal)
            && (exists f <- e.events :: SameEvent(AcknowledgedEvent(d, r, final), f))
  {
    hide AuditOk, TreesOk, JournalsOk, VersionsOk, Note, OnlyRun;
    var ev := AcknowledgedEvent(d, r, final);
    NoteKeeps(d, ev);
    var n := Note(d, ev);
    if r in d.receipts { AcknowledgedReceipt(d, r); }
    hide Inv;
    if r in d.receipts && d.receipts[r].phase != Terminal {
      var rc := RecoveredReceipt(d.receipts[r], version, final);
      PutReceiptKeeps(n, r, rc);
      KeptTrans(d, n, Apply(PutReceipt(r, rc), n), r);
    }
  }

  lemma MarkReceiptRolledBackKeeps(d: Disk, r: RunId, base: Tree)
    requires Inv(d) && (if r in d.journals then InState(d, r, RolledBack) else r in d.receipts)
    ensures var e := MarkReceiptRolledBack(d, r, base);
            && Kept(d, e, r) && SameButAudit(d, e)
            && (r in e.receipts ==> e.receipts[r].phase == Terminal)
            && (exists f <- e.events :: SameEvent(RolledBackEvent(d, r, base), f))
  {
    hide Inv, Note, OnlyRun, Fate;
    var ev := RolledBackEvent(d, r, base);
    NoteKeeps(d, ev);
    var n := Note(d, ev);
    if r in d.receipts && d.receipts[r].phase != Terminal {
      var rc := RolledBackReceipt(d.receipts[r], base);
      PutReceiptKeeps(n, r, rc);
      KeptTrans(d, n, Apply(PutReceipt(r, rc), n), r);
    }
  }

  lemma RevertsOnly(d: Disk, r: RunId)
    ensures var e := Apply(RevertVersion(r), d); e == d.(versions := e.versions, head := e.head)
  {
    hide HeadIsRun;
  }

  lemma RevertKeeps(d: Disk, r: RunId)
    requires Inv(d) && InState(d, r, RolledBack)
    ensures var e := Revert(d, r);
            && Kept(d, e, r) && Inv(e) && e == d.(versions := e.versions, head := e.head)
            && (HeadIsRun(d, r) ==> SettledHead(e))
  {
    if HeadIsRun(d, r) { RevertedHead(d, r); }
    RevertsOnly(d, r);
    hide Inv, Kept, HeadIsRun, Apply;
    if HeadIsRun(d, r) {
      StepKept(RevertVersion(r), d, r);
    } else {
      KeptSame(d, r);
    }
  }

  predicate TerminalState(d: Disk, r: RunId) { InState(d, r, Acknowledged) || InState(d, r, RolledBack) }

  /** Past its commit point a journal awaiting the database is exactly one whose
      version, database head and live tree all agree with it. */
  lemma CommittedIffNamed(d: Disk, r: RunId)
    requires Inv(d) && InState(d, r, PendingDb)
    ensures DbNames(d, r) <==> Agreed(d, r)
    ensures DbNames(d, r) ==> DatabaseCommitted(d, r) && RollbackVersionAgrees(d, r)
  {
    hide AuditOk;
    assert JournalOk(d, r);
    if DbNames(d, r) {
      assert d.head.value == d.db.value.version;
    }
  }

  lemma UncommittedBase(d: Disk, r: RunId)
    requires Inv(d) && Swapping(d, r) && !DbNames(d, r)
    ensures Owner(d, r) && BaseSafe(d, r, d.journals[r])
  {
    hide AuditOk, VersionsOk;
    assert JournalOk(d, r);
  }

  lemma PromotingUnnamed(d: Disk, r: RunId)
    requires VersionsOk(d) && r in d.journals && d.journals[r].state !in {PendingDb, Acknowledged}
    ensures !DbNames(d, r)
  {
  }

  /** What recovery makes of one journal: it is closed, as acknowledged exactly when
      the run was past its commit point, and nothing but this run's records moved. */
  ghost predicate Closed(d: Disk, e: Disk, r: RunId) {
    && Kept(d, e, r) && TerminalState(e, r)
    && (InState(e, r, Acknowledged) <==> PastCommit(d, r))
    && (Owner(d, r) && InState(e, r, RolledBack) ==> SettledHead(e))
    && (r in d.receipts ==>
          (e.receipts[r].phase != Terminal <==> d.receipts[r].phase != Terminal && InState(d, r, Preparing)))
  }

  /** Rollbacks are not receipted while they run. */
  lemma RollbackReceipt(d: Disk, r: RunId)
    requires AuditOk(d) && InState(d, r, Acknowledged) && d.journals[r].kind == Rollback && r in d.receipts
    ensures d.receipts[r].phase == Terminal
  {
    assert ReceiptOk(d, r);
  }

  lemma CloseAcknowledged(d: Disk, r: RunId)
    requires Inv(d) && InState(d, r, Acknowledged)
    ensures Closed(d, RecoverJournal(d, r).0, r) && RecoverJournal(d, r).1 == AcknowledgedRun
  {
    var j := d.journals[r];
    if j.kind == Rollback && r in d.receipts { RollbackReceipt(d, r); }
    hide Inv, Fate, UpdateRecoveredReceipt;
    if j.kind == Promotion {
      UpdateRecoveredReceiptKeeps(d, r, None, Some(j.target));
    } else {
      KeptSame(d, r);
    }
  }

  lemma CloseRolledBack(d: Disk, r: RunId)
    requires Inv(d) && InState(d, r, RolledBack)
    ensures var e := MarkReceiptRolledBack(Revert(d, r), r, d.journals[r].base);
            && Kept(d, e, r) && InState(e, r, RolledBack)
            && (r in e.receipts ==> e.receipts[r].phase == Terminal)
            && (Owner(d, r) ==> SettledHead(e))
            && (exists f <- e.events :: SameEvent(RolledBackEvent(d, r, d.journals[r].base), f))
  {
    var m := Revert(d, r);
    RevertKeeps(d, r);
    if Owner(d, r) { UnstagedHead(d, r); }
    hide Inv, Fate, MarkReceiptRolledBack, Revert, HeadIsRun;
    MarkReceiptRolledBackKeeps(m, r, d.journals[r].base);
    KeptTrans(d, m, MarkReceiptRolledBack(m, r, d.journals[r].base), r);
  }

  lemma UnstagedHead(d: Disk, r: RunId)
    requires Inv(d) && Owner(d, r) && InState(d, r, RolledBack)
    ensures !HeadIsRun(d, r) ==> SettledHead(d)
  {
    hide TreesOk, JournalsOk, AuditOk;
  }

  /** One more step of the same run after steps that kept everything else. */
  lemma KeptStep(d: Disk, e: Disk, op: Op, r: RunId)
    requires Kept(d, e, r) && Allowed(op, e) && OwnStep(op, e, r)
    ensures Kept(d, Apply(op, e), r) && Inv(Apply(op, e))
  {
    assert Inv(e) by { hide Inv, Fate; }
    StepKept(op, e, r);
    assert Inv(Apply(op, e)) by { hide Inv, Fate; }
    hide Inv, Kept, Allowed, Apply;
    KeptTrans(d, e, Apply(op, e), r);
  }

  lemma KeptMark(d: Disk, e: Disk, r: RunId, s: JournalState)
    requires Kept(d, e, r) && r in e.journals && JournalStep(e, r, e.journals[r].(state := s))
    ensures Kept(d, Mark(e, r, s), r) && Inv(Mark(e, r, s)) && InState(Mark(e, r, s), r, s)
  {
    hide Inv, Fate, JournalStep, Kept;
    KeptStep(d, e, PutJournal(r, e.journals[r].(state := s)), r);
  }

  function MoveBackup(d: Disk, r: RunId): Disk {
    Apply(BackupToPersistent(r), if d.persistent.Some? then Apply(PersistentToFailed(r), d) else d)
  }

  lemma MarkOnly(d: Disk, r: RunId, s: JournalState)
    requires r in d.journals
    ensures Mark(d, r, s) == d.(journals := d.journals[r := d.journals[r].(state := s)])
    ensures Apply(RemoveStaging(r), d) == d.(staging := d.staging - {r})
    ensures Apply(RemoveBackup(r), d) == d.(backups := d.backups - {r})
  {
  }

  lemma AsideOnly(d: Disk, r: RunId)
    ensures d.persistent.Some? ==>
              Apply(PersistentToFailed(r), d) == d.(persistent := None, failed := d.failed + [d.persistent.value])
  {
  }

  lemma BackOnly(d: Disk, r: RunId)
    requires r in d.backups
    ensures Apply(BackupToPersistent(r), d) == d.(persistent := Some(d.backups[r]), backups := d.backups - {r})
  {
  }

  /** The two renames: what was live is put aside, the backup becomes live. */
  lemma MoveOnly(d: Disk, r: RunId)
    requires r in d.backups
    ensures MoveBackup(d, r) ==
              d.(persistent := Some(d.backups[r]), backups := d.backups - {r},
                 failed := if d.persistent.Some? then d.failed + [d.persistent.value] else d.failed)
  {
    var aside := if d.persistent.Some? then Apply(PersistentToFailed(r), d) else d;
    AsideOnly(d, r);
    assert MoveBackup(d, r) == Apply(BackupToPersistent(r), aside);
    BackOnly(aside, r);
    hide Apply, MoveBackup;
  }

  lemma RestoreBackupResult(d: Disk, r: RunId)
    requires r in d.journals
    ensures var moved := if r in d.backups then MoveBackup(d, r) else d;
            RestoreBackup(d, r) ==
              if moved.persistent == Some(d.journals[r].base) then
                (moved.(staging := moved.staging - {r},
                        journals := moved.journals[r := d.journals[r].(state := RolledBack)]), true)
              else (moved, false)
  {
  }

  lemma MoveBackupRules(d: Disk, r: RunId)
    requires Owner(d, r) && Swapping(d, r) && !DbNames(d, r) && r in d.backups && BaseSafe(d, r, d.journals[r])
    ensures d.persistent.Some? ==> Allowed(PersistentToFailed(r), d)
    ensures Allowed(BackupToPersistent(r), if d.persistent.Some? then Apply(PersistentToFailed(r), d) else d)
    ensures var e := MoveBackup(d, r);
            e == d.(persistent := Some(d.journals[r].base), backups := d.backups - {r}, failed := e.failed)
  {
  }

  lemma MoveBackupKeeps(d: Disk, r: RunId)
    requires Inv(d) && Swapping(d, r) && !DbNames(d, r) && r in d.backups
    ensures var e := MoveBackup(d, r);
            && Kept(d, e, r) && Inv(e)
            && e == d.(persistent := Some(d.journals[r].base), backups := d.backups - {r}, failed := e.failed)
  {
    UncommittedBase(d, r);
    MoveBackupRules(d, r);
    KeptSame(d, r);
    hide Inv, Fate, Kept, Allowed, Apply;
    if d.persistent.Some? {
      KeptStep(d, d, PersistentToFailed(r), r);
      KeptStep(d, Apply(PersistentToFailed(r), d), BackupToPersistent(r), r);
    } else {
      KeptStep(d, d, BackupToPersistent(r), r);
    }
  }

  lemma RestoreBackupRules(d: Disk, r: RunId)
    requires Owner(d, r) && Swapping(d, r) && !DbNames(d, r) && r in d.backups && BaseSafe(d, r, d.journals[r])
    ensures var swept := Apply(RemoveStaging(r), MoveBackup(d, r));
            && r in swept.journals && swept.journals[r] == d.journals[r]
            && JournalStep(swept, r, d.journals[r].(state := RolledBack))
            && RestoreBackup(d, r) == (Mark(swept, r, RolledBack), true)
            && Mark(swept, r, RolledBack).journals[r].base == d.journals[r].base
  {
    MoveBackupRules(d, r);
    hide MoveBackup, BaseSafe;
    RestoreBackupIs(d, r);
  }

  lemma RestoreBackupKeeps(d: Disk, r: RunId)
    requires Inv(d) && Swapping(d, r) && !DbNames(d, r) && r in d.backups
    ensures var (e, ok) := RestoreBackup(d, r);
            ok && Kept(d, e, r) && Inv(e) && InState(e, r, RolledBack) && e.journals[r].base == d.journals[r].base
  {
    UncommittedBase(d, r);
    MoveBackupKeeps(d, r);
    RestoreBackupRules(d, r);
    hide *;
    var moved := MoveBackup(d, r);
    var swept := Apply(RemoveStaging(r), moved);
    assert Allowed(RemoveStaging(r), moved) && OwnStep(RemoveStaging(r), moved, r) by { SweepRules(moved, r); }
    KeptStep(d, moved, RemoveStaging(r), r);
    KeptMark(d, swept, r, RolledBack);
  }

  lemma SweepRules(d: Disk, r: RunId)
    ensures Allowed(RemoveStaging(r), d) && OwnStep(RemoveStaging(r), d, r)
  {
  }

  lemma RestoreBackupIs(d: Disk, r: RunId)
    requires r in d.journals && r in d.backups && MoveBackup(d, r).persistent == Some(d.journals[r].base)
    requires MoveBackup(d, r).journals == d.journals
    ensures RestoreBackup(d, r) == (Mark(Apply(RemoveStaging(r), MoveBackup(d, r)), r, RolledBack), true)
  {
  }

  lemma CloseByRollback(d: Disk, m: Disk, r: RunId)
    requires Inv(d) && Swapping(d, r) && Kept(d, m, r) && InState(m, r, RolledBack) && !PastCommit(d, r)
    requires m.journals[r].base == d.journals[r].base
    ensures Closed(d, MarkReceiptRolledBack(Revert(m, r), r, d.journals[r].base), r)
  {
    hide Inv, Fate, Revert, MarkReceiptRolledBack, PastCommit;
    CloseRolledBack(m, r);
    KeptTrans(d, m, MarkReceiptRolledBack(Revert(m, r), r, d.journals[r].base), r);
  }

  lemma PreparingBranch(d: Disk, r: RunId)
    requires InState(d, r, Preparing)
    ensures var swept := Apply(RemoveStaging(r), d);
            && swept.journals == d.journals && JournalStep(swept, r, d.journals[r].(state := RolledBack))
            && var e := Mark(swept, r, RolledBack);
            && RecoverJournal(d, r) == (e, Cleaned) && InState(e, r, RolledBack)
            && e.head == d.head && e.db == d.db && e.receipts == d.receipts
  {
  }

  lemma ClosePreparing(d: Disk, r: RunId)
    requires Inv(d) && InState(d, r, Preparing)
    ensures Closed(d, RecoverJournal(d, r).0, r) && RecoverJournal(d, r).1 == Cleaned
  {
    hide Inv, Fate, Kept, RecoverJournal, Apply, Mark, JournalStep, Allowed;
    var swept := Apply(RemoveStaging(r), d);
    PreparingBranch(d, r);
    if Owner(d, r) { assert VersionsOk(d) by { InvParts(d); } PreparingHead(d, r); }
    KeptSame(d, r);
    SweepRules(d, r);
    KeptStep(d, d, RemoveStaging(r), r);
    KeptMark(d, swept, r, RolledBack);
  }

  lemma PreparingHead(d: Disk, r: RunId)
    requires VersionsOk(d) && Owner(d, r) && InState(d, r, Preparing)
    ensures SettledHead(d)
  {
  }

  lemma SweptAcknowledged(d: Disk, r: RunId)
    requires Inv(d) && InState(d, r, PendingDb) && DbNames(d, r)
    ensures r in Apply(RemoveBackup(r), d).journals
    ensures var e := Mark(Apply(RemoveBackup(r), d), r, Acknowledged);
            Kept(d, e, r) && Inv(e) && InState(e, r, Acknowledged)
  {
    KeptSame(d, r);
    MarkOnly(d, r, Acknowledged);
    AcknowledgeRules(d, r);
    hide Inv, Fate, Kept, Apply, Allowed, OwnStep, Mark, JournalStep;
    KeptStep(d, d, RemoveBackup(r), r);
    KeptMark(d, Apply(RemoveBackup(r), d), r, Acknowledged);
  }

  lemma AcknowledgeRules(d: Disk, r: RunId)
    requires InState(d, r, PendingDb) && DbNames(d, r)
    ensures Allowed(RemoveBackup(r), d) && OwnStep(RemoveBackup(r), d, r)
    ensures JournalStep(d.(backups := d.backups - {r}), r, d.journals[r].(state := Acknowledged))
  {
  }

  lemma CloseByAcknowledgement(d: Disk, m: Disk, r: RunId, version: Option<VersionId>)
    requires Kept(d, m, r) && Inv(m) && InState(m, r, Acknowledged) && PastCommit(d, r)
    ensures m.journals[r].kind == Promotion ==> Closed(d, UpdateRecoveredReceipt(m, r, version, None), r)
    ensures m.journals[r].kind == Rollback ==> Closed(d, m, r)
  {
    assert !InState(d, r, Preparing);
    hide Inv, Fate, UpdateRecoveredReceipt, PastCommit;
    if m.journals[r].kind == Promotion {
      UpdateRecoveredReceiptKeeps(m, r, version, None);
      KeptTrans(d, m, UpdateRecoveredReceipt(m, r, version, None), r);
    } else if r in m.receipts {
      AcknowledgedRollbackReceipt(m, r);
    }
  }

  lemma CloseCommitted(d: Disk, r: RunId)
    requires Inv(d) && InState(d, r, PendingDb) && DbNames(d, r)
    ensures Closed(d, RecoverJournal(d, r).0, r) && RecoverJournal(d, r).1 == AcknowledgedRun
  {
    hide Inv, Fate, Kept, Closed, RecoverJournal, Apply, Mark, UpdateRecoveredReceipt;
    hide DatabaseCommitted, RollbackVersionAgrees, DbNames, Agreed;
    CommittedIffNamed(d, r);
    SweptAcknowledged(d, r);
    CommittedBranch(d, r);
    CloseByAcknowledgement(d, Mark(Apply(RemoveBackup(r), d), r, Acknowledged), r, d.head);
  }

  lemma AcknowledgedRollbackReceipt(d: Disk, r: RunId)
    requires Inv(d) && InState(d, r, Acknowledged) && d.journals[r].kind == Rollback && r in d.receipts
    ensures d.receipts[r].phase == Terminal
  {
    hide AuditOk, TreesOk, JournalsOk, VersionsOk;
    RollbackReceipt(d, r);
  }

  lemma CommittedBranch(d: Disk, r: RunId)
    requires r in d.journals && Agreed(d, r) && DatabaseCommitted(d, r) && RollbackVersionAgrees(d, r)
    ensures var acknowledged := Mark(Apply(RemoveBackup(r), d), r, Acknowledged);
            && acknowledged.journals[r].kind == d.journals[r].kind
            && RecoverJournal(d, r) ==
               (if d.journals[r].kind == Promotion then UpdateRecoveredReceipt(acknowledged, r, d.head, None)
                else acknowledged, AcknowledgedRun)
  {
    hide UpdateRecoveredReceipt, DatabaseCommitted, RollbackVersionAgrees, HeadIsRun;
  }

  lemma UncommittedBranch(d: Disk, r: RunId)
    requires Swapping(d, r) && !Agreed(d, r)
    ensures var j := d.journals[r];
            RecoverJournal(d, r) ==
              if r in d.backups then
                var (restored, ok) := RestoreBackup(d, r);
                if ok then (MarkReceiptRolledBack(Revert(restored, r), r, j.base), RolledBackRun)
                else (restored, ManualIntervention)
              else if d.persistent == Some(j.base) then
                (MarkReceiptRolledBack(Revert(Mark(d, r, RolledBack), r), r, j.base), RolledBackRun)
              else (d, ManualIntervention)
  {
    hide Agreed, RestoreBackup, Revert, MarkReceiptRolledBack, Mark;
  }

  lemma CloseFromBackup(d: Disk, r: RunId)
    requires Inv(d) && Swapping(d, r) && !DbNames(d, r) && r in d.backups
    ensures Closed(d, MarkReceiptRolledBack(Revert(RestoreBackup(d, r).0, r), r, d.journals[r].base), r)
    ensures RestoreBackup(d, r).1
  {
    hide Inv, Fate, Kept, Closed, Revert, MarkReceiptRolledBack, RestoreBackup;
    RestoreBackupKeeps(d, r);
    CloseByRollback(d, RestoreBackup(d, r).0, r);
  }

  lemma CloseInPlace(d: Disk, r: RunId)
    requires Inv(d) && Swapping(d, r) && !DbNames(d, r) && r !in d.backups
    ensures Closed(d, MarkReceiptRolledBack(Revert(Mark(d, r, RolledBack), r), r, d.journals[r].base), r)
    ensures d.persistent == Some(d.journals[r].base)
  {
    UncommittedBase(d, r);
    UndoRules(d, r);
    MarkOnly(d, r, RolledBack);
    hide Inv, Fate, Kept, Closed, Revert, MarkReceiptRolledBack, JournalStep, Mark, Apply;
    KeptSame(d, r);
    KeptMark(d, d, r, RolledBack);
    CloseByRollback(d, Mark(d, r, RolledBack), r);
  }

  lemma UndoRules(d: Disk, r: RunId)
    requires Swapping(d, r) && !DbNames(d, r) && r !in d.backups && d.persistent == Some(d.journals[r].base)
    ensures JournalStep(d, r, d.journals[r].(state := RolledBack))
  {
  }

  lemma CloseUncommitted(d: Disk, r: RunId)
    requires Inv(d) && Swapping(d, r) && !DbNames(d, r)
    ensures Closed(d, RecoverJournal(d, r).0, r) && RecoverJournal(d, r).1 == RolledBackRun
  {
    assert !Agreed(d, r) by { hide HeadIsRun; }
    UncommittedBranch(d, r);
    hide Inv, Fate, Closed, Revert, MarkReceiptRolledBack, RecoverJournal, RestoreBackup, Mark;
    if r in d.backups {
      CloseFromBackup(d, r);
    } else {
      CloseInPlace(d, r);
    }
  }

  lemma CloseAlreadyRolledBack(d: Disk, r: RunId)
    requires Inv(d) && InState(d, r, RolledBack)
    ensures Closed(d, RecoverJournal(d, r).0, r) && RecoverJournal(d, r).1 == RolledBackRun
  {
    hide Inv, Fate, Revert, MarkReceiptRolledBack;
    CloseRolledBack(d, r);
  }

  lemma NamedIsPending(d: Disk, r: RunId)
    requires Inv(d) && r in d.journals && DbNames(d, r) && !InState(d, r, Acknowledged)
    ensures InState(d, r, PendingDb)
  {
  }

  /** Every journal of a reachable state is closed by one visit of recovery, as
      acknowledged exactly past the commit point; none needs manual intervention. */
  lemma RecoverJournalCloses(d: Disk, r: RunId)
    requires Inv(d) && r in d.journals
    ensures Closed(d, RecoverJournal(d, r).0, r) && RecoverJournal(d, r).1 != ManualIntervention
  {
    hide Inv, Closed, RecoverJournal, Fate;
    if InState(d, r, Acknowledged) {
      CloseAcknowledged(d, r);
    } else if InState(d, r, RolledBack) {
      CloseAlreadyRolledBack(d, r);
    } else if InState(d, r, Preparing) {
      ClosePreparing(d, r);
    } else if DbNames(d, r) {
      NamedIsPending(d, r);
      CloseCommitted(d, r);
    } else {
      CloseUncommitted(d, r);
    }
  }
}
