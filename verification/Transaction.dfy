/**
 The rename-swap transaction on one workspace, step by step as the code performs
 it, under arbitrary failures of every step.
 */
module Transaction {
  import opened Wrappers
  import opened Protocol
  import opened Runs
  import opened HostState

  datatype Outcome = Promoted | Conflict | Refused | RecoveryRequired
  datatype ViewAnswer = Matches | Differs | Throws

  /** The check before the swap: it throws when the context cannot be rebuilt or has
      changed, and a rollback, which is bound to no View, does without it. */
  function Answer(expected: Option<ViewBinding>, latest: Option<ViewBinding>): ViewAnswer {
    if expected.None? then Matches
    else if latest.None? || latest.value.context != expected.value.context then Throws
    else if latest.value.view != expected.value.view then Differs
    else Matches
  }

  /** The input of a promotion: what to journal, and which hashes to insist on. */
  datatype Plan = Plan(kind: Kind, base: Tree, permit: PermitId, targetVersion: Option<VersionId>,
                       expectedTarget: Option<Tree>, expectedSource: Option<string>, binding: Option<ViewBinding>)

  predicate Meets(plan: Plan, staged: Tree) {
    && (plan.expectedSource.Some? ==> staged.versioned == plan.expectedSource.value)
    && (plan.expectedTarget.Some? ==> staged == plan.expectedTarget.value)
  }

  function JournalOf(plan: Plan, staged: Tree): Journal {
    Journal(plan.kind, Preparing, plan.base, staged, plan.permit, plan.targetVersion, plan.binding)
  }

  /** Only the swap state of run `r` and the state of permit `p` differ. */
  ghost predicate Elsewhere(d: Disk, e: Disk, r: RunId, p: PermitId) {
    && e == d.(persistent := e.persistent, staging := e.staging, backups := e.backups, failed := e.failed,
               journals := e.journals, permits := e.permits, swapped := e.swapped, confirmed := e.confirmed)
    && (forall s | s != r :: s in e.journals <==> s in d.journals)
    && (forall s <- d.journals :: s != r ==> e.journals[s] == d.journals[s])
    && e.permits.Keys == d.permits.Keys
    && (forall q <- d.permits :: q != p ==> e.permits[q] == d.permits[q])
    && (p in d.permits ==> e.permits[p] == d.permits[p].(state := e.permits[p].state))
  }

  lemma ElsewhereOwn(d: Disk, e: Disk, r: RunId, p: PermitId)
    requires e == d.(staging := e.staging, journals := e.journals, confirmed := e.confirmed)
    requires e.journals == d.journals || (r in e.journals && e.journals == d.journals[r := e.journals[r]])
    ensures Elsewhere(d, e, r, p)
  {
  }

  lemma ElsewhereSwap(d: Disk, e: Disk, r: RunId, p: PermitId)
    requires e == d.(persistent := e.persistent, staging := e.staging, backups := e.backups, failed := e.failed,
                     journals := e.journals, permits := e.permits, swapped := e.swapped)
    requires e.journals == d.journals || (r in e.journals && e.journals == d.journals[r := e.journals[r]])
    requires p in d.permits && (e.permits == d.permits || e.permits == d.permits[p := d.permits[p].(state := Consumed)])
    ensures Elsewhere(d, e, r, p)
  {
  }

  lemma ElsewhereTrans(d: Disk, e: Disk, f: Disk, r: RunId, p: PermitId)
    requires Elsewhere(d, e, r, p) && Elsewhere(e, f, r, p)
    ensures Elsewhere(d, f, r, p)
  {
  }

  /** The tree is as it was before the swap, and no journal asks recovery to touch it. */
  predicate Undone(d: Disk, r: RunId, live: Option<Tree>) {
    && d.persistent == live && r !in d.backups
    && (r in d.journals ==> d.journals[r].state in {Preparing, RolledBack})
  }

  lemma Admitted(d: Disk, r: RunId)
    requires Inv(d) && Owner(d, r) && r !in d.journals
    ensures r !in d.backups && r !in d.swapped && d.persistent == Some(d.lock.value.tree) && !DbNames(d, r)
  {
    hide AuditOk;
  }

  // ------------------------------------------------ the journal writes it makes

  lemma MayAbandon(d: Disk, r: RunId)
    requires InState(d, r, Preparing)
    ensures JournalStep(d, r, d.journals[r].(state := RolledBack))
  {
  }

  lemma MayPromote(d: Disk, r: RunId)
    requires InState(d, r, Preparing) && Owner(d, r) && d.persistent == Some(d.journals[r].base)
    requires PermitConsumed(d, d.journals[r]) && r in d.staging && d.staging[r] == d.journals[r].target
    requires Confirmed(d.confirmed, r, d.journals[r])
    requires r in d.receipts ==> d.receipts[r].phase == PendingPromotion
    ensures JournalStep(d, r, d.journals[r].(state := Promoting))
  {
  }

  lemma MayPend(d: Disk, r: RunId)
    requires InState(d, r, Promoting) && r in d.backups && d.persistent == Some(d.journals[r].target)
    ensures JournalStep(d, r, d.journals[r].(state := PendingDb))
  {
  }

  lemma MayUndo(d: Disk, r: RunId)
    requires Swapping(d, r) && r !in d.backups && d.persistent == Some(d.journals[r].base) && !DbNames(d, r)
    ensures JournalStep(d, r, d.journals[r].(state := RolledBack))
  {
  }

  lemma JournalStepStaged(d: Disk, e: Disk, r: RunId, j: Journal)
    requires r !in d.journals && JournalStep(d, r, j) && e == d.(staging := e.staging)
    ensures JournalStep(e, r, j)
  {
  }

  lemma FirstJournal(d: Disk, r: RunId, j: Journal)
    requires r !in d.journals && JournalStep(d, r, j)
    ensures j.state == Preparing && Owner(d, r) && j.permit in d.permits
    ensures r in d.receipts ==> d.receipts[r].phase == PendingPromotion
  {
  }

  // ------------------------------------------------------------- the transaction

  /** The unconditional removal of an old backup never finds one. */
  method NoBackupToDelete(h: Host, r: RunId, remains: Tree) returns (ok: bool)
    requires h.Valid() && r !in h.disk.backups
    modifies h
    ensures h.Valid() && h.disk == old(h.disk) && Remembered(ok, h.faulted, old(h.faulted))
  {
    hide Host.Valid, Fate, Inv;
    ok := h.DeleteBackup(r, remains);
    assert h.disk.backups == old(h.disk).backups;
  }

  /** The two removals and the copy that fill the staging directory. */
  method Stage(h: Host, r: RunId, assembled: Option<Tree>, partial: Tree) returns (ok: bool)
    requires h.Valid() && r !in h.disk.backups
    modifies h
    ensures h.Valid() && Fate(h.disk) == old(Fate(h.disk))
    ensures h.disk == old(h.disk).(staging := h.disk.staging)
    ensures ok ==> assembled.Some? && r in h.disk.staging && h.disk.staging[r] == assembled.value
    ensures assembled.Some? ==> Remembered(ok, h.faulted, old(h.faulted))
    ensures old(h.faulted) ==> h.faulted
  {
    hide Host.Valid, Fate, Inv;
    ok := h.DeleteStaging(r);
    if !ok { return; }
    ok := NoBackupToDelete(h, r, partial);
    if !ok { return; }
    if assembled.None? {
      var _ := h.FillStaging(r, partial);
      return false;
    }
    ok := h.FillStaging(r, assembled.value);
  }

  /** The renames that put the backup back, and the hash check of what they restored. */
  method BringBack(h: Host, r: RunId, base: Tree) returns (restored: bool)
    requires h.Valid() && Owner(h.disk, r) && InState(h.disk, r, Promoting) && !DbNames(h.disk, r)
    requires r in h.disk.backups && h.disk.backups[r] == base
    modifies h
    ensures h.Valid() && Fate(h.disk) == old(Fate(h.disk))
    ensures h.disk == old(h.disk).(persistent := h.disk.persistent, backups := h.disk.backups, failed := h.disk.failed)
    ensures restored ==> h.disk.persistent == Some(base) && r !in h.disk.backups
    ensures Remembered(restored, h.faulted, old(h.faulted))
  {
    hide Host.Valid, Fate, Inv;
    if h.disk.persistent.Some? {
      restored := h.RenameToFailed(r);
      if !restored { return; }
    }
    restored := h.RenameBackup(r);
    if !restored { return; }
    var live := h.ReadLive();
    restored := live == Some(base);
  }

  /** The undoing of a failed swap; false when it could not be completed. */
  method UndoSwap(h: Host, r: RunId, j: Journal, backupCreated: bool) returns (undone: bool)
    requires h.Valid() && Owner(h.disk, r) && InState(h.disk, r, Promoting) && h.disk.journals[r] == j
    requires !DbNames(h.disk, r)
    requires if backupCreated then r in h.disk.backups && h.disk.backups[r] == j.base
             else r !in h.disk.backups && h.disk.persistent == Some(j.base)
    modifies h
    ensures h.Valid() && Fate(h.disk) == old(Fate(h.disk))
    ensures h.disk == old(h.disk).(persistent := h.disk.persistent, backups := h.disk.backups, failed := h.disk.failed,
                                   journals := h.disk.journals)
    ensures undone ==> h.disk.persistent == Some(j.base) && r !in h.disk.backups
    ensures h.disk.journals == if undone then old(h.disk).journals[r := j.(state := RolledBack)] else old(h.disk).journals
    ensures Remembered(undone, h.faulted, old(h.faulted))
  {
    hide Host.Valid, Fate, Inv, JournalStep;
    if backupCreated {
      undone := BringBack(h, r, j.base);
      if !undone { return; }
    }
    MayUndo(h.disk, r);
    undone := h.WriteJournal(r, j.(state := RolledBack));
  }

  /** The second rename and the hash check of what it put at the live path. */
  method Install(h: Host, r: RunId, j: Journal) returns (installed: bool)
    requires h.Valid() && Owner(h.disk, r) && InState(h.disk, r, Promoting) && h.disk.journals[r] == j
    requires r in h.disk.backups && h.disk.persistent.None? && r in h.disk.staging && h.disk.staging[r] == j.target
    modifies h
    ensures h.Valid() && Fate(h.disk) == old(Fate(h.disk))
    ensures h.disk == old(h.disk).(persistent := h.disk.persistent, staging := h.disk.staging)
    ensures installed ==> h.disk.persistent == Some(j.target)
    ensures Remembered(installed, h.faulted, old(h.faulted))
  {
    hide Host.Valid, Fate, Inv;
    installed := h.RenameStaging(r);
    if installed {
      var final := h.ReadLive();
      installed := final == Some(j.target);
    }
  }

  /** The second rename and, behind it, the PENDING_DB journal. */
  method Land(h: Host, r: RunId, j: Journal) returns (installed: bool, marked: bool)
    requires h.Valid() && Owner(h.disk, r) && InState(h.disk, r, Promoting) && h.disk.journals[r] == j
    requires r in h.disk.backups && h.disk.persistent.None? && r in h.disk.staging && h.disk.staging[r] == j.target
    modifies h
    ensures h.Valid() && Fate(h.disk) == old(Fate(h.disk))
    ensures h.disk == old(h.disk).(persistent := h.disk.persistent, staging := h.disk.staging, journals := h.disk.journals)
    ensures h.disk.journals == if marked then old(h.disk).journals[r := j.(state := PendingDb)] else old(h.disk).journals
    ensures installed ==> h.disk.persistent == Some(j.target)
    ensures (marked ==> installed) && Remembered(marked, h.faulted, old(h.faulted))
  {
    hide Host.Valid, Fate, Inv, JournalStep;
    marked := false;
    installed := Install(h, r, j);
    if installed {
      MayPend(h.disk, r);
      marked := h.WriteJournal(r, j.(state := PendingDb));
    }
  }

  /** From the PROMOTING journal to the promoted tree, or back. */
  method Swap(h: Host, r: RunId, j: Journal) returns (out: Outcome)
    requires h.Valid() && Owner(h.disk, r) && InState(h.disk, r, Promoting) && h.disk.journals[r] == j
    requires !DbNames(h.disk, r) && r !in h.disk.backups && r !in h.disk.swapped
    requires h.disk.persistent == Some(j.base) && r in h.disk.staging && h.disk.staging[r] == j.target
    modifies h
    ensures h.Valid() && Fate(h.disk) == old(Fate(h.disk))
    ensures h.disk == old(h.disk).(persistent := h.disk.persistent, staging := h.disk.staging, backups := h.disk.backups,
                                   failed := h.disk.failed, journals := h.disk.journals, swapped := h.disk.swapped)
    ensures h.disk.journals == old(h.disk).journals[r := j.(state :=
              match out case Promoted => PendingDb case RecoveryRequired => Promoting case _ => RolledBack)]
    ensures out == Promoted ==>
              h.disk.persistent == Some(j.target) && r in h.disk.backups && h.disk.backups[r] == j.base
    ensures out == Refused ==> Undone(h.disk, r, Some(j.base))
    ensures out in {Promoted, Refused, RecoveryRequired} && Remembered(out == Promoted, h.faulted, old(h.faulted))
  {
    hide Host.Valid, Fate, Inv, JournalStep;
    var moved := h.RenameToBackup(r);
    if moved {
      var installed, marked := Land(h, r, j);
      if installed { return if marked then Promoted else RecoveryRequired; }
    }
    var undone := UndoSwap(h, r, j, moved);
    out := if undone then Refused else RecoveryRequired;
  }

  /** The refusals that close the journal again: discard staging, mark ROLLED_BACK. */
  method Abandon(h: Host, r: RunId) returns (closed: bool)
    requires h.Valid() && InState(h.disk, r, Preparing)
    modifies h
    ensures h.Valid() && Fate(h.disk) == old(Fate(h.disk))
    ensures h.disk == old(h.disk).(staging := h.disk.staging, journals := h.disk.journals)
    ensures h.disk.journals ==
            if closed then old(h.disk).journals[r := old(h.disk).journals[r].(state := RolledBack)] else old(h.disk).journals
    ensures closed ==> r !in h.disk.staging
    ensures Remembered(closed, h.faulted, old(h.faulted))
  {
    hide Host.Valid, Fate, Inv, JournalStep;
    closed := h.DeleteStaging(r);
    if closed {
      MayAbandon(h.disk, r);
      closed := h.WriteJournal(r, h.disk.journals[r].(state := RolledBack));
    }
  }

  /** The one-shot authorisation: only a permit that is being consumed can be. */
  method Consume(h: Host, id: PermitId) returns (consumed: bool)
    requires h.Valid() && id in h.disk.permits
    modifies h
    ensures h.Valid() && Fate(h.disk) == old(Fate(h.disk))
    ensures consumed ==> old(h.disk).permits[id].state == Consuming
    ensures h.disk == old(h.disk).(
              permits := if consumed then old(h.disk).permits[id := old(h.disk).permits[id].(state := Consumed)] else old(h.disk).permits)
    ensures old(h.disk).permits[id].state == Consuming ==> Remembered(consumed, h.faulted, old(h.faulted))
    ensures old(h.disk).permits[id].state != Consuming ==> h.faulted == old(h.faulted)
  {
    hide Host.Valid, Fate, Inv;
    consumed := false;
    if h.disk.permits[id].state == Consuming {
      consumed := h.SetPermit(id, Consumed);
    }
  }

  /** From the consumed permit: the PROMOTING journal, then the swap. */
  method Begin(h: Host, r: RunId, j: Journal) returns (out: Outcome)
    requires h.Valid() && Owner(h.disk, r) && InState(h.disk, r, Preparing) && h.disk.journals[r] == j
    requires !DbNames(h.disk, r) && r !in h.disk.backups && r !in h.disk.swapped
    requires h.disk.persistent == Some(j.base) && r in h.disk.staging && h.disk.staging[r] == j.target
    requires r in h.disk.receipts ==> h.disk.receipts[r].phase == PendingPromotion
    requires PermitConsumed(h.disk, j) && Confirmed(h.disk.confirmed, r, j)
    modifies h
    ensures h.Valid() && Fate(h.disk) == old(Fate(h.disk))
    ensures h.disk == old(h.disk).(persistent := h.disk.persistent, staging := h.disk.staging, backups := h.disk.backups,
                                   failed := h.disk.failed, journals := h.disk.journals, swapped := h.disk.swapped)
    ensures r in h.disk.journals && h.disk.journals == old(h.disk).journals[r := h.disk.journals[r]]
    ensures SameButState(j, h.disk.journals[r])
    ensures out == Promoted ==>
              && InState(h.disk, r, PendingDb) && h.disk.persistent == Some(j.target)
              && r in h.disk.backups && h.disk.backups[r] == j.base
    ensures out == Refused ==> Undone(h.disk, r, Some(j.base))
    ensures out == RecoveryRequired ==> InState(h.disk, r, Promoting)
    ensures out != Conflict && Remembered(out == Promoted, h.faulted, old(h.faulted))
  {
    hide Host.Valid, Fate, JournalStep, Inv, Confirmed;
    MayPromote(h.disk, r);
    var ok := h.WriteJournal(r, j.(state := Promoting));
    if !ok { return Refused; }
    out := Swap(h, r, j.(state := Promoting));
  }

  /** From a PREPARING journal whose base still matches: consume the permit, then swap. */
  method Authorized(h: Host, r: RunId, j: Journal) returns (out: Outcome)
    requires h.Valid() && Owner(h.disk, r) && InState(h.disk, r, Preparing) && h.disk.journals[r] == j
    requires !DbNames(h.disk, r) && r !in h.disk.backups && r !in h.disk.swapped
    requires h.disk.persistent == Some(j.base) && r in h.disk.staging && h.disk.staging[r] == j.target
    requires r in h.disk.receipts ==> h.disk.receipts[r].phase == PendingPromotion
    requires j.permit in h.disk.permits && Confirmed(h.disk.confirmed, r, j)
    modifies h
    ensures h.Valid() && Fate(h.disk) == old(Fate(h.disk)) && Elsewhere(old(h.disk), h.disk, r, j.permit)
    ensures r in h.disk.journals && SameButState(j, h.disk.journals[r])
    ensures out == Promoted ==>
              && InState(h.disk, r, PendingDb) && h.disk.persistent == Some(j.target)
              && r in h.disk.backups && h.disk.backups[r] == j.base && PermitConsumed(h.disk, j)
    ensures out == Refused ==> Undone(h.disk, r, Some(j.base))
    ensures out == RecoveryRequired ==> h.faulted && InState(h.disk, r, Promoting) && PermitConsumed(h.disk, j)
    ensures out != Conflict
    ensures !h.faulted ==> (out == Promoted <==> old(h.disk).permits[j.permit].state == Consuming)
  {
    hide Host.Valid, Fate, JournalStep, Inv, Elsewhere, Confirmed;
    var consumed := Consume(h, j.permit);
    if !consumed {
      var _ := Abandon(h, r);
      ElsewhereOwn(old(h.disk), h.disk, r, j.permit);
      return Refused;
    }
    out := Begin(h, r, j);
    ElsewhereSwap(old(h.disk), h.disk, r, j.permit);
  }

  datatype Comparison = Same | Different | Unreadable

  /** The compare of the compare-and-swap: the live tree's hash and the current View. */
  method Compare(h: Host, r: RunId, base: Tree, expected: Option<ViewBinding>, latest: Option<ViewBinding>) returns (c: Comparison)
    requires h.Valid() && Owner(h.disk, r) && InState(h.disk, r, Preparing)
    modifies h
    ensures h.Valid() && Fate(h.disk) == old(Fate(h.disk)) && (old(h.faulted) ==> h.faulted)
    ensures h.disk == old(h.disk).(confirmed := h.disk.confirmed)
    ensures c == Same ==> h.disk.persistent == Some(base) && Answer(expected, latest) == Matches
    ensures c == Same && expected.Some? ==> r in h.disk.confirmed && h.disk.confirmed[r] == expected.value
    ensures c == Different ==> h.disk.persistent != Some(base) || Answer(expected, latest) == Differs
    ensures !h.faulted && h.disk.persistent.Some? ==>
              (c == Same <==> h.disk.persistent == Some(base) && Answer(expected, latest) == Matches)
  {
    hide Host.Valid, Fate, Inv;
    var current := h.ReadLive();
    var view := Answer(expected, latest);
    if expected.Some? && latest.Some? { h.SawView(r, latest.value); }
    c := if current.None? || view == Throws then Unreadable
         else if current != Some(base) || view == Differs then Different
         else Same;
  }

  /** The first journal write, and the comparison behind it; none when the write fails. */
  method Challenge(h: Host, r: RunId, j: Journal, latest: Option<ViewBinding>) returns (c: Option<Comparison>)
    requires h.Valid() && r !in h.disk.journals && JournalStep(h.disk, r, j)
    modifies h
    ensures h.Valid() && Fate(h.disk) == old(Fate(h.disk)) && (old(h.faulted) ==> h.faulted)
    ensures h.disk == old(h.disk).(journals := h.disk.journals, confirmed := h.disk.confirmed)
    ensures h.disk.journals == if c.Some? then old(h.disk).journals[r := j] else old(h.disk).journals
    ensures c == Some(Same) ==>
              h.disk.persistent == Some(j.base) && Answer(j.binding, latest) == Matches && Confirmed(h.disk.confirmed, r, j)
    ensures c == Some(Different) ==> h.disk.persistent != Some(j.base) || Answer(j.binding, latest) == Differs
    ensures !h.faulted && h.disk.persistent.Some? ==>
              (c == Some(Same) <==> h.disk.persistent == Some(j.base) && Answer(j.binding, latest) == Matches)
  {
    hide Host.Valid, Fate, JournalStep, Inv;
    FirstJournal(h.disk, r, j);
    var ok := h.WriteJournal(r, j);
    if !ok { return None; }
    var comparison := Compare(h, r, j.base, j.binding, latest);
    c := Some(comparison);
  }

  /** A conflict, unless closing the journal fails. */
  method Dispute(h: Host, r: RunId, j: Journal) returns (out: Outcome)
    requires h.Valid() && InState(h.disk, r, Preparing) && h.disk.journals[r] == j && r !in h.disk.backups
    modifies h
    ensures h.Valid() && Fate(h.disk) == old(Fate(h.disk)) && Elsewhere(old(h.disk), h.disk, r, j.permit)
    ensures h.disk.permits == old(h.disk).permits && r in h.disk.journals && SameButState(j, h.disk.journals[r])
    ensures Undone(h.disk, r, old(h.disk).persistent)
    ensures out == Conflict ==> InState(h.disk, r, RolledBack) && r !in h.disk.staging
    ensures out in {Conflict, Refused} && Remembered(out == Conflict, h.faulted, old(h.faulted))
  {
    hide Host.Valid, Fate, Inv, Elsewhere;
    var closed := Abandon(h, r);
    ElsewhereOwn(old(h.disk), h.disk, r, j.permit);
    out := if closed then Conflict else Refused;
  }

  /** The journalled part of a promotion, from its first journal write. */
  method Journalled(h: Host, r: RunId, j: Journal, latest: Option<ViewBinding>) returns (out: Outcome)
    requires h.Valid() && r !in h.disk.journals && JournalStep(h.disk, r, j)
    requires r in h.disk.staging && h.disk.staging[r] == j.target
    modifies h
    ensures h.Valid() && Fate(h.disk) == old(Fate(h.disk)) && Elsewhere(old(h.disk), h.disk, r, j.permit)
    ensures r in h.disk.journals ==> SameButState(j, h.disk.journals[r])
    ensures out == Promoted ==>
              && InState(h.disk, r, PendingDb) && old(h.disk).persistent == Some(j.base) && Answer(j.binding, latest) == Matches
              && h.disk.persistent == Some(j.target) && r in h.disk.backups && h.disk.backups[r] == j.base
              && PermitConsumed(h.disk, j)
    ensures out == Conflict ==>
              && InState(h.disk, r, RolledBack) && r !in h.disk.staging && h.disk.permits == old(h.disk).permits
              && (old(h.disk).persistent != Some(j.base) || Answer(j.binding, latest) == Differs)
    ensures out in {Conflict, Refused} ==> Undone(h.disk, r, old(h.disk).persistent)
    ensures out == RecoveryRequired ==> h.faulted && InState(h.disk, r, Promoting) && PermitConsumed(h.disk, j)
    ensures j.permit in old(h.disk).permits
    ensures !h.faulted ==> (out == Promoted <==>
              Answer(j.binding, latest) == Matches && old(h.disk).persistent == Some(j.base) && old(h.disk).permits[j.permit].state == Consuming)
  {
    hide Host.Valid, Fate, JournalStep;
    HostInv(h);
    FirstJournal(h.disk, r, j);
    Admitted(h.disk, r);
    hide Inv, Elsewhere, Confirmed;
    var comparison := Challenge(h, r, j, latest);
    ghost var compared := h.disk;
    ElsewhereOwn(old(h.disk), compared, r, j.permit);
    if comparison.None? || comparison.value == Unreadable { return Refused; }
    if comparison.value == Different {
      out := Dispute(h, r, j);
      ElsewhereTrans(old(h.disk), compared, h.disk, r, j.permit);
      return;
    }
    out := Authorized(h, r, j);
    ElsewhereTrans(old(h.disk), compared, h.disk, r, j.permit);
  }

  /** The promotion of a workspace. */
  method Promote(h: Host, r: RunId, plan: Plan, assembled: Option<Tree>, partial: Tree, latest: Option<ViewBinding>)
    returns (out: Outcome)
    requires h.Valid() && r !in h.disk.journals && Owner(h.disk, r)
    requires forall staged :: Meets(plan, staged) ==> JournalStep(h.disk, r, JournalOf(plan, staged))
    modifies h
    ensures h.Valid() && Fate(h.disk) == old(Fate(h.disk)) && Elsewhere(old(h.disk), h.disk, r, plan.permit)
    ensures r in h.disk.journals ==>
              assembled.Some? && Meets(plan, assembled.value) && SameButState(JournalOf(plan, assembled.value), h.disk.journals[r])
    ensures out == Promoted ==>
              && assembled.Some? && Meets(plan, assembled.value) && InState(h.disk, r, PendingDb)
              && old(h.disk).persistent == Some(plan.base) && Answer(plan.binding, latest) == Matches
              && h.disk.persistent == assembled && r in h.disk.backups && h.disk.backups[r] == plan.base
              && plan.permit in h.disk.permits && h.disk.permits[plan.permit].state == Consumed
    ensures out == Conflict ==>
              && InState(h.disk, r, RolledBack) && r !in h.disk.staging && h.disk.permits == old(h.disk).permits
              && (old(h.disk).persistent != Some(plan.base) || Answer(plan.binding, latest) == Differs)
    ensures out in {Conflict, Refused} ==> Undone(h.disk, r, old(h.disk).persistent)
    ensures out == RecoveryRequired ==>
              h.faulted && InState(h.disk, r, Promoting) && plan.permit in h.disk.permits && h.disk.permits[plan.permit].state == Consumed
    ensures !h.faulted ==>
              (out == Promoted <==>
                 && assembled.Some? && Meets(plan, assembled.value) && Answer(plan.binding, latest) == Matches
                 && old(h.disk).persistent == Some(plan.base)
                 && plan.permit in old(h.disk).permits && old(h.disk).permits[plan.permit].state == Consuming)
  {
    hide Host.Valid, Fate, JournalStep;
    HostInv(h);
    Admitted(h.disk, r);
    hide Inv;
    var ok := Stage(h, r, assembled, partial);
    if !ok || !Meets(plan, assembled.value) { return Refused; }
    var j := JournalOf(plan, assembled.value);
    JournalStepStaged(old(h.disk), h.disk, r, j);
    out := Journalled(h, r, j, latest);
  }
}
