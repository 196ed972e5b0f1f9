/**
 Two histories the code can produce in which recovery does not deliver: in one an
 unfinished rollback takes a committed one back, in the other a receipt that could not
 be read is still open on a tree that is gone.
 */
module FailingHistories {
  import opened Wrappers
  import opened Protocol
  import opened Runs
  import opened RecoveryPlan
  import opened RecoveryPass
  import opened UnfinishedRelease

  lemma Next(ops: seq<Op>, d: Disk, op: Op) returns (more: seq<Op>)
    requires Legal(ops, d) && Allowed(op, Exec(ops, d))
    ensures more == ops + [op] && Legal(more, d) && Exec(more, d) == Apply(op, Exec(ops, d))
  {
    hide Allowed, Apply;
    more := ops + [op];
    assert more[..|more| - 1] == ops;
  }

  lemma NextAdmit(ops: seq<Op>, d: Disk, r: RunId) returns (more: seq<Op>)
    requires Legal(ops, d) && Allowed(Admit(r), Exec(ops, d)) && Exec(ops, d).persistent.Some?
    ensures Legal(more, d) && Exec(more, d) == Exec(ops, d).(lock := Some(Lock(r, Exec(ops, d).persistent.value)))
  {
    hide Legal, Exec, JournalStep, PermitStep, ReceiptStep;
    more := Next(ops, d, Admit(r));
  }

  lemma NextPermit(ops: seq<Op>, d: Disk, id: PermitId, p: Permit) returns (more: seq<Op>)
    requires Legal(ops, d) && PermitStep(Exec(ops, d), id, p)
    ensures Legal(more, d) && Exec(more, d) == Exec(ops, d).(permits := Exec(ops, d).permits[id := p])
  {
    hide Legal, Exec, JournalStep, PermitStep, ReceiptStep;
    more := Next(ops, d, PutPermit(id, p));
  }

  lemma NextJournal(ops: seq<Op>, d: Disk, r: RunId, j: Journal) returns (more: seq<Op>)
    requires Legal(ops, d) && JournalStep(Exec(ops, d), r, j)
    ensures Legal(more, d) && Exec(more, d) == Exec(ops, d).(journals := Exec(ops, d).journals[r := j])
  {
    hide Legal, Exec, JournalStep, PermitStep, ReceiptStep;
    more := Next(ops, d, PutJournal(r, j));
  }

  lemma NextReceipt(ops: seq<Op>, d: Disk, r: RunId, rc: Receipt) returns (more: seq<Op>)
    requires Legal(ops, d) && ReceiptStep(Exec(ops, d), r, rc)
    ensures Legal(more, d) && Exec(more, d) == Exec(ops, d).(receipts := Exec(ops, d).receipts[r := rc])
  {
    hide Legal, Exec, JournalStep, PermitStep, ReceiptStep;
    more := Next(ops, d, PutReceipt(r, rc));
  }

  lemma NextStaging(ops: seq<Op>, d: Disk, r: RunId, t: Tree) returns (more: seq<Op>)
    requires Legal(ops, d)
    ensures Legal(more, d) && Exec(more, d) == Exec(ops, d).(staging := Exec(ops, d).staging[r := t])
  {
    hide Legal, Exec, JournalStep, PermitStep, ReceiptStep;
    more := Next(ops, d, PutStaging(r, t));
  }

  lemma NextConfirm(ops: seq<Op>, d: Disk, r: RunId, seen: ViewBinding) returns (more: seq<Op>)
    requires Legal(ops, d) && Owner(Exec(ops, d), r) && InState(Exec(ops, d), r, Preparing)
    ensures Legal(more, d) && Exec(more, d) == Exec(ops, d).(confirmed := Exec(ops, d).confirmed[r := seen])
  {
    hide Legal, Exec, JournalStep, PermitStep, ReceiptStep;
    more := Next(ops, d, ConfirmView(r, seen));
  }

  lemma NextVersion(ops: seq<Op>, d: Disk, r: RunId, id: VersionId, v: Version) returns (more: seq<Op>)
    requires Legal(ops, d) && Allowed(RecordVersion(r, id, v), Exec(ops, d))
    ensures Legal(more, d) && Exec(more, d) == Exec(ops, d).(versions := Exec(ops, d).versions[id := v], head := Some(id))
  {
    hide Legal, Exec, Allowed;
    more := Next(ops, d, RecordVersion(r, id, v));
  }

  lemma NextCommit(ops: seq<Op>, d: Disk, r: RunId) returns (more: seq<Op>)
    requires Legal(ops, d) && Allowed(CommitDatabase(r), Exec(ops, d))
    ensures Legal(more, d)
    ensures var m := Exec(ops, d);
            && m.head.Some? && m.head.value in m.versions && r in m.journals
            && Exec(more, d) == m.(db := Some(DbHead(m.head.value, m.journals[r].target, m.versions[m.head.value].run,
                                                     m.versions[m.head.value].kind)))
  {
    hide Legal, Exec;
    more := Next(ops, d, CommitDatabase(r));
  }

  lemma NextSweep(ops: seq<Op>, d: Disk, r: RunId) returns (more: seq<Op>)
    requires Legal(ops, d) && InState(Exec(ops, d), r, PendingDb) && DbNames(Exec(ops, d), r)
    ensures Legal(more, d) && Exec(more, d) == Exec(ops, d).(backups := Exec(ops, d).backups - {r})
  {
    hide Legal, Exec;
    more := Next(ops, d, RemoveBackup(r));
  }

  lemma NextUnfinished(ops: seq<Op>, d: Disk, r: RunId) returns (more: seq<Op>)
    requires Legal(ops, d) && Allowed(ReleaseUnfinished(r), Exec(ops, d))
    ensures more == ops + [ReleaseUnfinished(r)] && Legal(more, d)
    ensures var m := Exec(ops, d);
            && r in m.journals && r in m.backups
            && Exec(more, d) == m.(lock := None, journals := m.journals - {r}, backups := m.backups - {r},
                                   orphans := m.orphans[r := Orphan(m.journals[r], m.backups[r])])
  {
    hide Legal, Exec;
    more := Next(ops, d, ReleaseUnfinished(r));
  }

  /** An unlocked agent whose index and database agree. */
  predicate Idle(d: Disk) { d.lock.None? && d.persistent.Some? && d.backups == map[] && SettledHead(d) }

  /** A run and a permit nobody has used. */
  predicate Unused(d: Disk, r: RunId, id: PermitId) {
    && r !in d.journals && r !in d.receipts && r !in d.swapped && r !in d.orphans && r !in d.staging && id !in d.permits
    && (forall e <- d.events :: e.run != r)
  }

  /** From a journal being prepared to one that waits for the database. */
  function Swapped(d: Disk, r: RunId): Disk
    requires r in d.journals && d.persistent.Some?
  {
    var j := d.journals[r];
    d.(permits := if j.permit in d.permits then d.permits[j.permit := d.permits[j.permit].(state := Consumed)] else d.permits,
       persistent := Some(j.target), staging := d.staging - {r}, backups := d.backups[r := d.persistent.value],
       journals := d.journals[r := j.(state := PendingDb)], swapped := d.swapped + {r})
  }

  predicate Prepared(d: Disk, r: RunId) {
    && Owner(d, r) && InState(d, r, Preparing) && r in d.staging && r !in d.swapped && r !in d.backups
    && var j := d.journals[r];
    && d.staging[r] == j.target && d.persistent == Some(j.base) && Confirmed(d.confirmed, r, j)
    && j.permit in d.permits && d.permits[j.permit].state == Consuming
    && (r in d.receipts ==> d.receipts[r].phase == PendingPromotion)
  }

  lemma BeginSwap(d: Disk, r: RunId) returns (ops: seq<Op>)
    requires Prepared(d, r)
    ensures Legal(ops, d)
    ensures var j := d.journals[r];
            Exec(ops, d) == d.(permits := d.permits[j.permit := d.permits[j.permit].(state := Consumed)],
                               persistent := None, backups := d.backups[r := j.base],
                               journals := d.journals[r := j.(state := Promoting)], swapped := d.swapped + {r})
  {
    var j := d.journals[r];
    ops := [];
    ops := Next(ops, d, PutPermit(j.permit, d.permits[j.permit].(state := Consumed)));
    ops := Next(ops, d, PutJournal(r, j.(state := Promoting)));
    ops := Next(ops, d, PersistentToBackup(r));
  }

  lemma FinishSwap(d: Disk, r: RunId) returns (ops: seq<Op>)
    requires Owner(d, r) && InState(d, r, Promoting) && r in d.backups && d.persistent.None?
    requires r in d.staging && d.staging[r] == d.journals[r].target
    ensures Legal(ops, d)
    ensures var j := d.journals[r];
            Exec(ops, d) == d.(persistent := Some(j.target), staging := d.staging - {r},
                               journals := d.journals[r := j.(state := PendingDb)])
  {
    ops := [];
    ops := Next(ops, d, StagingToPersistent(r));
    ops := Next(ops, d, PutJournal(r, d.journals[r].(state := PendingDb)));
  }

  lemma Swap(d: Disk, r: RunId) returns (ops: seq<Op>)
    requires Prepared(d, r)
    ensures Legal(ops, d) && Exec(ops, d) == Swapped(d, r)
  {
    var first := BeginSwap(d, r);
    var m := Exec(first, d);
    assert m.journals[r].(state := PendingDb) == d.journals[r].(state := PendingDb);
    var second := FinishSwap(m, r);
    LegalAppend(first, second, d);
    ops := first + second;
    hide Legal, Exec;
    assert m.journals[r := d.journals[r].(state := PendingDb)] == d.journals[r := d.journals[r].(state := PendingDb)];
  }

  function TargetOf(d: Disk, v: VersionId): Tree
    requires d.persistent.Some? && v in d.versions
  {
    Tree(d.versions[v].snapshot, d.persistent.value.managed)
  }

  /** The run is admitted and has claimed a permit. */
  lemma Claim(d: Disk, r: RunId, id: PermitId, grant: Grant) returns (ops: seq<Op>)
    requires Idle(d) && Unused(d, r, id)
    ensures Legal(ops, d)
    ensures Exec(ops, d) == d.(lock := Some(Lock(r, d.persistent.value)),
                               permits := d.permits[id := Permit(Consuming, r, grant)])
  {
    var permit := Permit(Issued, r, grant);
    ops := AdmitAndIssue(d, r, id, permit);
    hide Exec, Legal, Apply;
    ops := NextPermit(ops, d, id, permit.(state := Consuming));
    assert d.permits[id := permit][id := permit.(state := Consuming)] == d.permits[id := permit.(state := Consuming)];
  }

  lemma AdmitAndIssue(d: Disk, r: RunId, id: PermitId, permit: Permit) returns (ops: seq<Op>)
    requires Idle(d) && Unused(d, r, id) && permit.state == Issued
    ensures Legal(ops, d)
    ensures Exec(ops, d) == d.(lock := Some(Lock(r, d.persistent.value)), permits := d.permits[id := permit])
  {
    ops := [];
    assert Exec(ops, d) == d && Legal(ops, d);
    hide Exec, Legal, Apply;
    ops := NextAdmit(ops, d, r);
    hide Allowed;
    ops := NextPermit(ops, d, id, permit);
  }

  /** The first journal of a claimed run, over a filled staging directory. */
  lemma Journalise(d: Disk, r: RunId, j: Journal) returns (ops: seq<Op>)
    requires JournalStep(d, r, j) && r !in d.journals
    ensures Legal(ops, d)
    ensures Exec(ops, d) == d.(staging := d.staging[r := j.target], journals := d.journals[r := j])
  {
    ops := [];
    assert Exec(ops, d) == d && Legal(ops, d);
    hide Exec, Legal, Apply;
    ops := NextStaging(ops, d, r, j.target);
    assert JournalStep(d.(staging := d.staging[r := j.target]), r, j);
    hide JournalStep;
    ops := NextJournal(ops, d, r, j);
  }

  lemma PrepareRollback(d: Disk, r: RunId, id: PermitId, v: VersionId) returns (ops: seq<Op>)
    requires Idle(d) && Unused(d, r, id) && v in d.versions && d.versions[v].run != Some(r)
    ensures Legal(ops, d)
    ensures var base, t := d.persistent.value, TargetOf(d, v);
            && Exec(ops, d) == d.(lock := Some(Lock(r, base)), staging := d.staging[r := t],
                                  permits := d.permits[id := Permit(Consuming, r, SnapshotGrant(base, t.versioned, v))],
                                  journals := d.journals[r := Journal(Rollback, Preparing, base, t, id, Some(v), None)])
  {
    var base, t := d.persistent.value, TargetOf(d, v);
    var first := Claim(d, r, id, SnapshotGrant(base, t.versioned, v));
    hide Exec, Legal, Apply;
    var second := Journalise(Exec(first, d), r, Journal(Rollback, Preparing, base, t, id, Some(v), None));
    hide JournalStep;
    LegalAppend(first, second, d);
    ops := first + second;
  }

  lemma ClaimAndOpen(d: Disk, r: RunId, id: PermitId, grant: Grant, t: Tree) returns (ops: seq<Op>)
    requires Idle(d) && Unused(d, r, id)
    ensures Legal(ops, d)
    ensures var base := d.persistent.value;
            Exec(ops, d) == d.(lock := Some(Lock(r, base)), permits := d.permits[id := Permit(Consuming, r, grant)],
                               receipts := d.receipts[r := OpenReceipt(base, t)])
  {
    var base := d.persistent.value;
    ops := Claim(d, r, id, grant);
    MayOpen(Exec(ops, d), r, OpenReceipt(base, t));
    hide Exec, Legal, Apply, ReceiptStep;
    ops := NextReceipt(ops, d, r, OpenReceipt(base, t));
  }

  lemma JournaliseAndConfirm(d: Disk, r: RunId, j: Journal, binding: ViewBinding) returns (ops: seq<Op>)
    requires JournalStep(d, r, j) && r !in d.journals
    ensures Legal(ops, d)
    ensures Exec(ops, d) == d.(staging := d.staging[r := j.target], journals := d.journals[r := j],
                               confirmed := d.confirmed[r := binding])
  {
    ops := Journalise(d, r, j);
    hide Exec, Legal, Apply;
    assert Owner(d, r) && j.state == Preparing;
    hide JournalStep;
    ops := NextConfirm(ops, d, r, binding);
  }

  lemma PreparePromotion(d: Disk, r: RunId, id: PermitId, binding: ViewBinding, t: Tree) returns (ops: seq<Op>)
    requires Idle(d) && Unused(d, r, id)
    ensures Legal(ops, d)
    ensures var base := d.persistent.value;
            && Exec(ops, d) == d.(lock := Some(Lock(r, base)), staging := d.staging[r := t],
                                  permits := d.permits[id := Permit(Consuming, r, ProposalGrant(base, binding, t, t, true, true))],
                                  receipts := d.receipts[r := OpenReceipt(base, t)],
                                  journals := d.journals[r := Journal(Promotion, Preparing, base, t, id, None, Some(binding))],
                                  confirmed := d.confirmed[r := binding])
  {
    var base := d.persistent.value;
    var first := ClaimAndOpen(d, r, id, ProposalGrant(base, binding, t, t, true, true), t);
    hide Exec, Legal, Apply;
    var j := Journal(Promotion, Preparing, base, t, id, None, Some(binding));
    assert JournalStep(Exec(first, d), r, j);
    hide JournalStep;
    var second := JournaliseAndConfirm(Exec(first, d), r, j, binding);
    LegalAppend(first, second, d);
    ops := first + second;
  }

  function OpenReceipt(base: Tree, final: Tree): Receipt {
    Receipt(PendingPromotion, Committed, base, final, None, true, 0)
  }

  lemma MayOpen(d: Disk, r: RunId, rc: Receipt)
    requires Owner(d, r) && r !in d.journals && r !in d.receipts && rc.phase == PendingPromotion && rc.decision == Committed
    requires rc.base == d.lock.value.tree
    ensures ReceiptStep(d, r, rc)
  {
  }

  function VersionOf(d: Disk, r: RunId): Version
    requires r in d.journals && d.db.Some?
  {
    var j := d.journals[r];
    Version(Expected(j.kind), j.target.versioned, Some(d.db.value.version),
            if j.kind == Rollback then j.targetVersion else None, Some(r))
  }

  lemma RecordAndCommit(d: Disk, r: RunId, id: VersionId) returns (ops: seq<Op>)
    requires Owner(d, r) && InState(d, r, PendingDb) && !DbNames(d, r) && SettledHead(d) && id !in d.versions
    requires d.persistent == Some(d.journals[r].target)
    ensures Legal(ops, d)
    ensures var j := d.journals[r];
            Exec(ops, d) == d.(versions := d.versions[id := VersionOf(d, r)], head := Some(id),
                               db := Some(DbHead(id, j.target, Some(r), Expected(j.kind))))
  {
    ops := [];
    assert Exec(ops, d) == d && Legal(ops, d);
    hide Exec, Legal, Apply;
    MayPublish(d, r, id, VersionOf(d, r));
    hide Allowed;
    ops := NextVersion(ops, d, r, id, VersionOf(d, r));
    ops := NextCommit(ops, d, r);
  }

  lemma SweepAndAcknowledge(d: Disk, r: RunId) returns (ops: seq<Op>)
    requires InState(d, r, PendingDb) && DbNames(d, r)
    ensures Legal(ops, d)
    ensures Exec(ops, d) == d.(backups := d.backups - {r}, journals := d.journals[r := d.journals[r].(state := Acknowledged)])
  {
    ops := [];
    assert Exec(ops, d) == d && Legal(ops, d);
    hide Exec, Legal, Apply;
    ops := NextSweep(ops, d, r);
    assert JournalStep(Exec(ops, d), r, d.journals[r].(state := Acknowledged));
    hide JournalStep;
    ops := NextJournal(ops, d, r, d.journals[r].(state := Acknowledged));
  }

  /** From a journal that waits for the database to its acknowledgement. */
  lemma Publish(d: Disk, r: RunId, id: VersionId) returns (ops: seq<Op>)
    requires Owner(d, r) && InState(d, r, PendingDb) && !DbNames(d, r) && SettledHead(d) && id !in d.versions
    requires d.persistent == Some(d.journals[r].target)
    ensures Legal(ops, d)
    ensures var j := d.journals[r];
            Exec(ops, d) == d.(versions := d.versions[id := VersionOf(d, r)], head := Some(id),
                               db := Some(DbHead(id, j.target, Some(r), Expected(j.kind))),
                               backups := d.backups - {r}, journals := d.journals[r := j.(state := Acknowledged)])
  {
    var first := RecordAndCommit(d, r, id);
    hide Exec, Legal, Apply;
    var second := SweepAndAcknowledge(Exec(first, d), r);
    LegalAppend(first, second, d);
    ops := first + second;
  }

  lemma MayPublish(d: Disk, r: RunId, id: VersionId, v: Version)
    requires Owner(d, r) && InState(d, r, PendingDb) && !DbNames(d, r) && SettledHead(d) && id !in d.versions
    requires d.persistent == Some(d.journals[r].target) && StagedVersion(d, r, v)
    ensures Allowed(RecordVersion(r, id, v), d)
    ensures Allowed(CommitDatabase(r), d.(versions := d.versions[id := v], head := Some(id)))
  {
  }

  /** What a run leaves on an agent it has given back. */
  ghost predicate GivenBack(d: Disk, e: Disk, r: RunId, id: PermitId, t: Tree) {
    && e.lock.None? && e.persistent == Some(t) && e.backups == map[] && SettledHead(e)
    && e.events == d.events && e.staging == d.staging && e.swapped == d.swapped + {r}
    && e.permits.Keys == d.permits.Keys + {id}
  }

  lemma GiveBack(d: Disk, r: RunId) returns (ops: seq<Op>)
    requires Owner(d, r) && Settled(d)
    ensures Legal(ops, d) && Exec(ops, d) == d.(lock := None)
  {
    ops := Next([], d, Release);
  }

  lemma PromotionIsPrepared(d: Disk, e: Disk, r: RunId, id: PermitId, binding: ViewBinding, t: Tree)
    requires Idle(d) && Unused(d, r, id)
    requires var base := d.persistent.value;
             e == d.(lock := Some(Lock(r, base)), staging := d.staging[r := t],
                     permits := d.permits[id := Permit(Consuming, r, ProposalGrant(base, binding, t, t, true, true))],
                     receipts := d.receipts[r := OpenReceipt(base, t)],
                     journals := d.journals[r := Journal(Promotion, Preparing, base, t, id, None, Some(binding))],
                     confirmed := d.confirmed[r := binding])
    ensures Prepared(e, r)
  {
  }

  lemma RollbackIsPrepared(d: Disk, e: Disk, r: RunId, id: PermitId, v: VersionId)
    requires Idle(d) && Unused(d, r, id) && v in d.versions
    requires var base, t := d.persistent.value, TargetOf(d, v);
             e == d.(lock := Some(Lock(r, base)), staging := d.staging[r := t],
                     permits := d.permits[id := Permit(Consuming, r, SnapshotGrant(base, t.versioned, v))],
                     journals := d.journals[r := Journal(Rollback, Preparing, base, t, id, Some(v), None)])
    ensures Prepared(e, r)
  {
  }

  /** A rollback up to the journal that waits for the database. */
  lemma SwapBack(d: Disk, r: RunId, id: PermitId, v: VersionId) returns (ops: seq<Op>)
    requires Idle(d) && Unused(d, r, id) && v in d.versions && d.versions[v].run != Some(r)
    ensures Legal(ops, d)
    ensures var base, t := d.persistent.value, TargetOf(d, v);
            Exec(ops, d) == d.(lock := Some(Lock(r, base)), persistent := Some(t), backups := d.backups[r := base],
                               permits := d.permits[id := Permit(Consumed, r, SnapshotGrant(base, t.versioned, v))],
                               journals := d.journals[r := Journal(Rollback, PendingDb, base, t, id, Some(v), None)],
                               swapped := d.swapped + {r})
  {
    var first := PrepareRollback(d, r, id, v);
    hide Exec, Legal, Apply;
    var e := Exec(first, d);
    RollbackIsPrepared(d, e, r, id, v);
    hide Prepared;
    var second := Swap(e, r);
    LegalAppend(first, second, d);
    ops := first + second;
    assert Swapped(e, r).staging == d.staging;
  }

  /** A rollback that unlocks the agent over its unfinished swap. */
  lemma AbandonRollback(d: Disk, r: RunId, id: PermitId, v: VersionId) returns (ops: seq<Op>)
    requires Idle(d) && Unused(d, r, id) && v in d.versions && d.versions[v].run != Some(r) && !DbNames(d, r)
    ensures Legal(ops, d) && ReleaseUnfinished(r) in ops
    ensures var base, t, e := d.persistent.value, TargetOf(d, v), Exec(ops, d);
            && GivenBack(d, e, r, id, t) && e.journals == d.journals && e.receipts == d.receipts
            && e.versions == d.versions && e.head == d.head && e.db == d.db
            && e.orphans.Keys == d.orphans.Keys + {r}
            && (forall q <- d.orphans :: q != r ==> e.orphans[q] == d.orphans[q])
            && e.orphans[r] == Orphan(Journal(Rollback, PendingDb, base, t, id, Some(v), None), base)
  {
    var swap := SwapBack(d, r, id, v);
    hide Exec, Legal;
    ops := NextUnfinished(swap, d, r);
    hide Apply, Allowed;
  }

  /** A rollback up to its acknowledgement. */
  lemma PublishBack(d: Disk, r: RunId, id: PermitId, v: VersionId, next: VersionId) returns (ops: seq<Op>)
    requires Idle(d) && Unused(d, r, id) && v in d.versions && d.versions[v].run != Some(r) && !DbNames(d, r) && next !in d.versions
    ensures Legal(ops, d)
    ensures var e := Exec(ops, d);
            && RolledBackTo(d, e, r, id, v, next) && Owner(e, r)
  {
    var swap := SwapBack(d, r, id, v);
    hide Exec, Legal, Apply, RolledBackTo;
    var m := Exec(swap, d);
    var publish := Publish(m, r, next);
    LegalAppend(swap, publish, d);
    ops := swap + publish;
    PublishedIsRolledBack(d, m, Exec(publish, m), r, id, v, next);
  }

  lemma PublishedIsRolledBack(d: Disk, m: Disk, e: Disk, r: RunId, id: PermitId, v: VersionId, next: VersionId)
    requires d.persistent.Some? && r !in d.journals && v in d.versions && d.db.Some?
    requires var base, t := d.persistent.value, TargetOf(d, v);
             m == d.(lock := Some(Lock(r, base)), persistent := Some(t), backups := d.backups[r := base],
                     permits := d.permits[id := Permit(Consumed, r, SnapshotGrant(base, t.versioned, v))],
                     journals := d.journals[r := Journal(Rollback, PendingDb, base, t, id, Some(v), None)],
                     swapped := d.swapped + {r})
    requires var j := m.journals[r];
             e == m.(versions := m.versions[next := VersionOf(m, r)], head := Some(next),
                     db := Some(DbHead(next, j.target, Some(r), Expected(j.kind))),
                     backups := m.backups - {r}, journals := m.journals[r := j.(state := Acknowledged)])
    ensures RolledBackTo(d, e, r, id, v, next) && Owner(e, r)
  {
  }

  ghost predicate RolledBackTo(d: Disk, e: Disk, r: RunId, id: PermitId, v: VersionId, next: VersionId)
    requires d.persistent.Some? && v in d.versions
  {
    var t := TargetOf(d, v);
    && e == d.(lock := e.lock, persistent := Some(t), backups := d.backups - {r}, permits := e.permits,
               journals := d.journals[r := Journal(Rollback, Acknowledged, d.persistent.value, t, id, Some(v), None)],
               versions := e.versions, head := Some(next), db := Some(DbHead(next, t, Some(r), RollbackCommit)),
               swapped := d.swapped + {r})
    && e.permits.Keys == d.permits.Keys + {id}
  }

  /** A rollback that is committed and acknowledged. */
  lemma CommitRollback(d: Disk, r: RunId, id: PermitId, v: VersionId, next: VersionId) returns (ops: seq<Op>)
    requires Idle(d) && Unused(d, r, id) && v in d.versions && d.versions[v].run != Some(r) && !DbNames(d, r) && next !in d.versions
    ensures Legal(ops, d) && RolledBackTo(d, Exec(ops, d), r, id, v, next) && Exec(ops, d).lock.None?
  {
    ops := PublishBack(d, r, id, v, next);
    hide Exec, Legal, Apply;
    var release := GiveBack(Exec(ops, d), r);
    LegalAppend(ops, release, d);
    ops := ops + release;
  }

  /** A promotion up to the journal that waits for the database. */
  lemma SwapIn(d: Disk, r: RunId, id: PermitId, binding: ViewBinding, t: Tree) returns (ops: seq<Op>)
    requires Idle(d) && Unused(d, r, id)
    ensures Legal(ops, d)
    ensures var base, e := d.persistent.value, Exec(ops, d);
            && e == d.(lock := Some(Lock(r, base)), persistent := Some(t), backups := d.backups[r := base],
                       permits := e.permits, receipts := d.receipts[r := OpenReceipt(base, t)],
                       journals := d.journals[r := Journal(Promotion, PendingDb, base, t, id, None, Some(binding))],
                       confirmed := e.confirmed, swapped := d.swapped + {r})
            && e.permits.Keys == d.permits.Keys + {id}
  {
    ops := PreparePromotion(d, r, id, binding, t);
    hide Exec, Legal, Apply;
    var e := Exec(ops, d);
    PromotionIsPrepared(d, e, r, id, binding, t);
    hide Prepared;
    var swap := Swap(e, r);
    LegalAppend(ops, swap, d);
    ops := ops + swap;
    assert Swapped(e, r).staging == d.staging;
  }

  ghost predicate PromotedTo(d: Disk, e: Disk, r: RunId, id: PermitId, binding: ViewBinding, t: Tree, next: VersionId)
    requires d.persistent.Some?
  {
    && e == d.(lock := e.lock, persistent := Some(t), backups := d.backups - {r}, permits := e.permits,
               receipts := e.receipts, confirmed := e.confirmed,
               journals := d.journals[r := Journal(Promotion, Acknowledged, d.persistent.value, t, id, None, Some(binding))],
               versions := e.versions, head := Some(next), db := Some(DbHead(next, t, Some(r), AgentCommit)),
               swapped := d.swapped + {r})
    && e.permits.Keys == d.permits.Keys + {id} && e.receipts.Keys == d.receipts.Keys + {r}
    && (forall s <- d.receipts :: s != r ==> e.receipts[s] == d.receipts[s])
    && e.versions.Keys == d.versions.Keys + {next} && (forall v <- d.versions :: v != next ==> e.versions[v] == d.versions[v])
  }

  lemma PublishIn(d: Disk, r: RunId, id: PermitId, binding: ViewBinding, t: Tree, next: VersionId) returns (ops: seq<Op>)
    requires Idle(d) && Unused(d, r, id) && !DbNames(d, r) && next !in d.versions
    ensures Legal(ops, d)
    ensures var e := Exec(ops, d);
            && PromotedTo(d, e, r, id, binding, t, next) && Owner(e, r)
            && e.receipts[r] == OpenReceipt(d.persistent.value, t)
  {
    var swap := SwapIn(d, r, id, binding, t);
    hide Exec, Legal, Apply, PromotedTo;
    var m := Exec(swap, d);
    var publish := Publish(m, r, next);
    LegalAppend(swap, publish, d);
    ops := swap + publish;
    PublishedIsPromoted(d, m, Exec(publish, m), r, id, binding, t, next);
  }

  lemma PublishedIsPromoted(d: Disk, m: Disk, e: Disk, r: RunId, id: PermitId, binding: ViewBinding, t: Tree, next: VersionId)
    requires d.persistent.Some? && r !in d.journals && r !in d.receipts
    requires var base := d.persistent.value;
             && m == d.(lock := Some(Lock(r, base)), persistent := Some(t), backups := d.backups[r := base],
                        permits := m.permits, receipts := d.receipts[r := OpenReceipt(base, t)],
                        journals := d.journals[r := Journal(Promotion, PendingDb, base, t, id, None, Some(binding))],
                        confirmed := m.confirmed, swapped := d.swapped + {r})
             && m.permits.Keys == d.permits.Keys + {id} && d.db.Some?
    requires var j := m.journals[r];
             e == m.(versions := m.versions[next := VersionOf(m, r)], head := Some(next),
                     db := Some(DbHead(next, j.target, Some(r), Expected(j.kind))),
                     backups := m.backups - {r}, journals := m.journals[r := j.(state := Acknowledged)])
    ensures PromotedTo(d, e, r, id, binding, t, next) && Owner(e, r) && e.receipts[r] == OpenReceipt(d.persistent.value, t)
  {
  }

  /** A promotion that is committed, acknowledged and receipted. */
  lemma CommitPromotion(d: Disk, r: RunId, id: PermitId, binding: ViewBinding, t: Tree, next: VersionId) returns (ops: seq<Op>)
    requires Idle(d) && Unused(d, r, id) && !DbNames(d, r) && next !in d.versions
    ensures Legal(ops, d) && PromotedTo(d, Exec(ops, d), r, id, binding, t, next) && Exec(ops, d).lock.None?
  {
    ops := PublishIn(d, r, id, binding, t, next);
    hide Exec, Legal, Apply;
    var e := Exec(ops, d);
    MayFinish(e, r);
    hide ReceiptStep;
    var rc := e.receipts[r].(phase := Terminal, version := Some(next));
    ops := NextReceipt(ops, d, r, rc);
    var release := GiveBack(Exec(ops, d), r);
    LegalAppend(ops, release, d);
    ops := ops + release;
  }

  lemma MayFinish(d: Disk, r: RunId)
    requires InState(d, r, Acknowledged) && r in d.receipts && d.receipts[r].decision == Committed
    requires d.receipts[r].phase == PendingPromotion && d.receipts[r].final == d.journals[r].target
    ensures forall id :: ReceiptStep(d, r, d.receipts[r].(phase := Terminal, version := Some(id)))
  {
  }

  /** A run and a permit are still unused after what other runs left. */
  lemma StillUnused(d: Disk, e: Disk, r: RunId, id: PermitId, s: RunId, q: PermitId)
    requires Unused(d, r, id) && r != s && id != q
    requires e.journals.Keys <= d.journals.Keys + {s} && e.receipts.Keys <= d.receipts.Keys + {s}
    requires e.swapped <= d.swapped + {s} && e.orphans.Keys <= d.orphans.Keys + {s}
    requires e.staging == d.staging && e.events == d.events && e.permits.Keys == d.permits.Keys + {q}
    ensures Unused(e, r, id)
  {
  }

  lemma Names()
    ensures "p" != "r" && "p" != "s" && "r" != "s"
  {
    assert "p"[0] != "r"[0] && "p"[0] != "s"[0] && "r"[0] != "s"[0];
  }

  /** The history.  A promotion takes the content from `first` to `second`; a rollback to
      the first version swaps the tree but cannot confirm its permit and unlocks the agent;
      the same rollback, asked for again, is committed and acknowledged.  The database
      names its run and its tree is live. */
  lemma RetriedRollback(first: Tree, second: Tree, binding: ViewBinding) returns (ops: seq<Op>)
    ensures Legal(ops, Fresh(first)) && ReleaseUnfinished("r") in ops
    ensures var d := Exec(ops, Fresh(first));
            && d.lock.None? && d.db.Some? && d.db.value.run == Some("s") && InState(d, "s", Acknowledged)
            && d.persistent == Some(d.db.value.live) && d.db.value.live.versioned == first.versioned
            && d.orphans.Keys == {"r"} && d.orphans["r"].journal.base == second
  {
    Names();
    var d0 := Fresh(first);
    assert Idle(d0) && Unused(d0, "p", "p") && Unused(d0, "r", "r") && Unused(d0, "s", "s");
    assert d0.versions.Keys == {0} && d0.versions[0].run.None? && d0.versions[0].snapshot == first.versioned;
    assert d0.db.value.run.None?;
    hide Fresh, Exec, Legal, Unused, Apply;
    ops := CommitPromotion(d0, "p", "p", binding, second, 1);
    var d1 := Exec(ops, d0);
    StillUnused(d0, d1, "r", "r", "p", "p");
    StillUnused(d0, d1, "s", "s", "p", "p");
    var abandoned := AbandonRollback(d1, "r", "r", 0);
    LegalAppend(ops, abandoned, d0);
    ops := ops + abandoned;
    var d2 := Exec(ops, d0);
    StillUnused(d1, d2, "s", "s", "r", "r");
    var retried := CommitRollback(d2, "s", "s", 0, 2);
    LegalAppend(ops, retried, d0);
    ops := ops + retried;
  }

  /** All-or-nothing fails there: whatever the listing orders, the next pass replaces the
      committed tree by the base of the abandoned rollback, and the database still names
      the committed one. */
  lemma CommittedRollbackIsLost(first: Tree, second: Tree, binding: ViewBinding) returns (ops: seq<Op>)
    requires first.versioned != second.versioned
    ensures Legal(ops, Fresh(first)) && ReleaseUnfinished("r") in ops
    ensures var d := OnDisk(Exec(ops, Fresh(first)));
            && d.db.Some? && d.db.value.run == Some("s") && InState(d, "s", Acknowledged)
            && d.persistent == Some(d.db.value.live) && d.db.value.live.versioned == first.versioned
            && (forall journals, receipts | Listing(journals, d.journals.Keys) && Listing(receipts, d.receipts.Keys) ::
                  var e := Pass(d, journals, receipts).0;
                  e.db == d.db && e.persistent == Some(second) && !Realised(d, e))
  {
    ops := RetriedRollback(first, second, binding);
    var core := Exec(ops, Fresh(first));
    var d := OnDisk(core);
    assert "s" !in core.orphans by { Names(); }
    assert InState(d, "s", Acknowledged) && d.db == core.db && d.persistent == core.persistent;
    hide Exec, Legal, Pass, OnDisk;
    forall journals, receipts | Listing(journals, d.journals.Keys) && Listing(receipts, d.receipts.Keys)
      ensures var e := Pass(d, journals, receipts).0; e.db == d.db && e.persistent == Some(second) && !Realised(d, e)
    {
      UnlockedPassUndoes(ops, first, journals, receipts);
    }
  }

  /** A run whose receipt is opened and then cannot be read: the agent is unlocked. */
  lemma LeaveReceiptOpen(d: Disk, r: RunId, id: PermitId, grant: Grant, t: Tree) returns (ops: seq<Op>)
    requires Idle(d) && Unused(d, r, id)
    ensures Legal(ops, d)
    ensures Exec(ops, d) == d.(permits := d.permits[id := Permit(Consuming, r, grant)],
                               receipts := d.receipts[r := OpenReceipt(d.persistent.value, t)])
  {
    ops := ClaimAndOpen(d, r, id, grant, t);
    hide Exec, Legal, Apply;
    var release := GiveBack(Exec(ops, d), r);
    LegalAppend(ops, release, d);
    ops := ops + release;
  }

  /** The next run commits another tree; the open receipt is stale, no swap of any lock is
      unfinished, and every pass asks for manual intervention. */
  lemma UnreadReceiptNeedsRepair(first: Tree, second: Tree, binding: ViewBinding, grant: Grant) returns (ops: seq<Op>)
    requires first != second
    ensures Legal(ops, Fresh(first)) && Exec(ops, Fresh(first)).orphans == map[]
    ensures var d := Exec(ops, Fresh(first));
            && d.lock.None? && d.persistent == Some(second) && Stale(d, "r")
            && (forall journals, receipts | Listing(journals, d.journals.Keys) && Listing(receipts, d.receipts.Keys) ::
                  ManualIntervention in Pass(d, journals, receipts).1)
  {
    Names();
    var d0 := Fresh(first);
    assert Idle(d0) && Unused(d0, "r", "r") && Unused(d0, "p", "p");
    assert d0.versions.Keys == {0} && d0.db.value.run.None? && d0.persistent == Some(first) && d0.orphans == map[];
    FreshInv(first);
    hide Fresh, Exec, Legal, Unused, Apply, Inv, Pass;
    ops := LeaveReceiptOpen(d0, "r", "r", grant, second);
    var d1 := Exec(ops, d0);
    StillUnused(d0, d1, "p", "p", "r", "r");
    assert d1.receipts["r"] == OpenReceipt(first, second);
    var promotion := CommitPromotion(d1, "p", "p", binding, second, 1);
    LegalAppend(ops, promotion, d0);
    ops := ops + promotion;
    var d := Exec(ops, d0);
    RunKeepsInv(ops, d0);
    assert Stale(d, "r");
    forall journals, receipts | Listing(journals, d.journals.Keys) && Listing(receipts, d.receipts.Keys)
      ensures ManualIntervention in Pass(d, journals, receipts).1
    {
      PassRecovers(d, journals, receipts);
    }
  }
}
