/**
 What holds over every run of the promotion protocol.  A run is any sequence of
 allowed effects; a kill is simply where the sequence stops, and a restarted
 process continues from the state it left.
 */
module Runs {
  import opened Wrappers
  import opened Protocol

  function Exec(ops: seq<Op>, d: Disk): Disk {
    if ops == [] then d else Apply(ops[|ops| - 1], Exec(ops[..|ops| - 1], d))
  }

  ghost predicate Legal(ops: seq<Op>, d: Disk) {
    ops == [] || (Legal(ops[..|ops| - 1], d) && Allowed(ops[|ops| - 1], Exec(ops[..|ops| - 1], d)))
  }

  lemma {:induction false} LegalPrefix(ops: seq<Op>, d: Disk, k: nat)
    requires Legal(ops, d) && k <= |ops|
    ensures Legal(ops[..k], d)
  {
    if k < |ops| {
      assert ops[..|ops| - 1][..k] == ops[..k];
      LegalPrefix(ops[..|ops| - 1], d, k);
    } else {
      assert ops[..k] == ops;
    }
  }

  /** The state in which the k-th effect of a run is applied, and the rule it obeys there. */
  lemma LegalAt(ops: seq<Op>, d: Disk, k: nat)
    requires Legal(ops, d) && k < |ops|
    ensures Legal(ops[..k], d) && Allowed(ops[k], Exec(ops[..k], d))
    ensures Exec(ops[..k + 1], d) == Apply(ops[k], Exec(ops[..k], d))
  {
    hide Allowed, Apply;
    LegalPrefix(ops, d, k);
    LegalPrefix(ops, d, k + 1);
    assert ops[..k + 1][..k] == ops[..k];
  }

  lemma {:induction false} LegalAppend(ops: seq<Op>, more: seq<Op>, d: Disk)
    requires Legal(ops, d) && Legal(more, Exec(ops, d))
    ensures Legal(ops + more, d) && Exec(ops + more, d) == Exec(more, Exec(ops, d))
  {
    hide Allowed, Apply;
    if more == [] {
      assert ops + more == ops;
    } else {
      var init := more[..|more| - 1];
      LegalAppend(ops, init, d);
      assert (ops + more)[..|ops + more| - 1] == ops + init;
    }
  }

  /** Safety over whole runs: the invariant holds wherever the run is cut off. */
  lemma {:induction false} RunKeepsInv(ops: seq<Op>, d: Disk)
    requires Inv(d) && Legal(ops, d)
    ensures Inv(Exec(ops, d))
  {
    hide Inv, Allowed, Apply;
    if ops != [] {
      RunKeepsInv(ops[..|ops| - 1], d);
      StepKeepsInv(ops[|ops| - 1], Exec(ops[..|ops| - 1], d));
    }
  }

  /** A freshly initialised agent: one recorded version, which the database names. */
  function Fresh(tree: Tree): Disk {
    Disk(Some(tree), map[], map[], [], map[], map[],
         map[0 := Version(Initial, tree.versioned, None, None, None)], Some(0),
         Some(DbHead(0, tree, None, Initial)), map[], [], None, map[], {}, map[])
  }

  lemma FreshInv(tree: Tree)
    ensures Inv(Fresh(tree))
  {
  }

  // ----------------------------------------------------- the base is never lost

  /** Wherever a run is cut off, every unfinished swap on the disk that the database
      head does not name has its base intact at the live path or in the backup, whether
      or not its lock was released; the live path is only missing when the backup of the
      run under the lock is there. */
  lemma BaseNeverLost(ops: seq<Op>, tree: Tree, r: RunId)
    requires Legal(ops, Fresh(tree))
    requires var d := OnDisk(Exec(ops, Fresh(tree))); Swapping(d, r) && !DbNames(d, r)
    ensures var d := OnDisk(Exec(ops, Fresh(tree)));
            && (d.persistent == Some(d.journals[r].base) || (r in d.backups && d.backups[r] == d.journals[r].base))
            && (Owner(d, r) ==> d.journals[r].base == d.lock.value.tree)
            && (!Owner(d, r) ==> r in d.backups && d.journals[r].kind == Rollback)
            && (d.persistent.None? ==> d.lock.Some? && d.lock.value.run in d.backups)
  {
    hide Legal, Exec, Fresh, Inv;
    FreshInv(tree);
    RunKeepsInv(ops, Fresh(tree));
    BaseIntact(Exec(ops, Fresh(tree)), r);
  }

  lemma BaseIntact(d: Disk, r: RunId)
    requires Inv(d) && Swapping(OnDisk(d), r) && !DbNames(d, r)
    ensures var j := OnDisk(d).journals[r];
            && (d.persistent == Some(j.base) || (r in OnDisk(d).backups && OnDisk(d).backups[r] == j.base))
            && (Owner(d, r) ==> j.base == d.lock.value.tree)
            && (!Owner(d, r) ==> r in OnDisk(d).backups && j.kind == Rollback)
    ensures d.persistent.None? ==> d.lock.Some? && d.lock.value.run in d.backups
  {
    hide VersionsOk, AuditOk, Covers;
    if r in d.orphans { assert OrphanOk(d, r); } else { assert JournalOk(d, r); }
  }

  /** Only an unfinished release orphans a swap, and in the histories considered here nothing adopts it again. */
  lemma {:induction false} OrphansOfRun(ops: seq<Op>, d: Disk)
    requires Inv(d) && Legal(ops, d)
    ensures Exec(ops, d).orphans.Keys == d.orphans.Keys + set op <- ops | op.ReleaseUnfinished? :: op.run
  {
    hide Inv, Allowed, Apply;
    if ops != [] {
      var init, op := ops[..|ops| - 1], ops[|ops| - 1];
      OrphansOfRun(init, d);
      RunKeepsInv(init, d);
      OrphansOfStep(op, Exec(init, d));
      assert ops == init + [op];
    }
  }

  lemma OrphansOfStep(op: Op, d: Disk)
    requires Inv(d) && Allowed(op, d)
    ensures Apply(op, d).orphans.Keys == d.orphans.Keys + if op.ReleaseUnfinished? then {op.run} else {}
  {
    hide Inv;
    if !op.ReleaseUnfinished? {
      hide *;
      WritesOrphans(op, d);
    }
  }

  lemma NothingOrphaned(ops: seq<Op>, tree: Tree)
    requires Legal(ops, Fresh(tree)) && (forall op <- ops :: !op.ReleaseUnfinished?)
    ensures Exec(ops, Fresh(tree)).orphans == map[] && OnDisk(Exec(ops, Fresh(tree))) == Exec(ops, Fresh(tree))
  {
    hide Legal, Exec, Inv;
    FreshInv(tree);
    OrphansOfRun(ops, Fresh(tree));
  }

  /** The database names the run, or the run is already acknowledged. */
  predicate PastCommit(d: Disk, r: RunId) {
    (InState(d, r, PendingDb) && DbNames(d, r)) || InState(d, r, Acknowledged)
  }

  lemma PastCommitJournal(d: Disk, r: RunId, s: RunId, k: Journal)
    requires JournalStep(d, s, k) && PastCommit(d, r)
    ensures PastCommit(Apply(PutJournal(s, k), d), r)
  {
  }

  lemma PastCommitDatabase(d: Disk, r: RunId, s: RunId)
    requires JournalsOk(d) && Allowed(CommitDatabase(s), d) && PastCommit(d, r)
    ensures PastCommit(Apply(CommitDatabase(s), d), r)
  {
    assert JournalOk(d, r);
  }

  lemma PastCommitStays(op: Op, d: Disk, r: RunId)
    requires Inv(d) && Allowed(op, d) && PastCommit(d, r)
    ensures PastCommit(Apply(op, d), r)
  {
    hide TreesOk, JournalsOk, VersionsOk, AuditOk, JournalStep;
    if op.PutJournal? {
      PastCommitJournal(d, r, op.run, op.journal);
    } else if op.CommitDatabase? {
      PastCommitDatabase(d, r, op.run);
    } else if !op.ReleaseUnfinished? {
      hide Allowed, Apply;
      Writes(op, d);
    }
  }

  lemma {:induction false} PastCommitForever(ops: seq<Op>, d: Disk, r: RunId)
    requires Inv(d) && Legal(ops, d) && PastCommit(d, r)
    ensures PastCommit(Exec(ops, d), r)
  {
    hide Inv, Allowed, Apply, PastCommit;
    if ops != [] {
      var init := ops[..|ops| - 1];
      PastCommitForever(init, d, r);
      RunKeepsInv(init, d);
      PastCommitStays(ops[|ops| - 1], Exec(init, d), r);
    }
  }

  lemma {:induction false} LegalSuffix(ops: seq<Op>, d: Disk, k: nat)
    requires Legal(ops, d) && k <= |ops|
    ensures Legal(ops[k..], Exec(ops[..k], d)) && Exec(ops[k..], Exec(ops[..k], d)) == Exec(ops, d)
  {
    hide Allowed, Apply;
    if k == |ops| {
      assert ops[..k] == ops;
    } else {
      var init := ops[..|ops| - 1];
      LegalSuffix(init, d, k);
      assert init[..k] == ops[..k] && ops[k..][..|ops[k..]| - 1] == init[k..];
    }
  }

  /** A backup is only ever torn after the database names its run, and from then
      on that backup is never restored and that run is never rolled back. */
  lemma TornBackupNeverRestored(ops: seq<Op>, tree: Tree, i: nat, k: nat, r: RunId)
    requires Legal(ops, Fresh(tree)) && i <= k < |ops| && ops[i].TearBackup? && ops[i].run == r
    ensures DbNames(Exec(ops[..i], Fresh(tree)), r)
    ensures ops[k] != BackupToPersistent(r)
    ensures ops[k].PutJournal? && ops[k].run == r ==> ops[k].journal.state == Acknowledged
  {
    hide Inv, Allowed, Apply, Fresh, Exec, Legal, PastCommit;
    var start := Fresh(tree);
    FreshInv(tree);
    LegalAt(ops, start, i);
    LegalAt(ops, start, k);
    RunKeepsInv(ops[..i], start);
    TearIsPastCommit(ops[i], Exec(ops[..i], start));
    LegalSuffix(ops[..k], start, i);
    assert ops[..k][..i] == ops[..i];
    PastCommitForever(ops[..k][i..], Exec(ops[..i], start), r);
    PastCommitForbids(ops[k], Exec(ops[..k], start), r);
  }

  lemma TearIsPastCommit(op: Op, d: Disk)
    requires op.TearBackup? && Allowed(op, d)
    ensures DbNames(d, op.run) && PastCommit(d, op.run)
  {
  }

  lemma PastCommitForbids(op: Op, d: Disk, r: RunId)
    requires Allowed(op, d) && PastCommit(d, r)
    ensures op != BackupToPersistent(r)
    ensures op.PutJournal? && op.run == r ==> op.journal.state == Acknowledged
  {
  }

  // ------------------------------------------------------ permits and the swap

  /** The permit under which a run's journal was written. */
  function PermitOf(d: Disk, r: RunId): Option<PermitId> {
    if r in d.journals then Some(d.journals[r].permit)
    else if r in d.orphans then Some(d.orphans[r].journal.permit)
    else None
  }

  lemma JournalKeepsPermit(d: Disk, s: RunId, k: Journal, r: RunId)
    requires JournalStep(d, s, k) && r in d.journals
    ensures PermitOf(Apply(PutJournal(s, k), d), r) == PermitOf(d, r)
  {
  }

  lemma OrphanUnjournalled(d: Disk, r: RunId)
    requires Inv(d) && r in d.orphans
    ensures r !in d.journals && !Owner(d, r)
  {
    assert OrphanOk(d, r);
  }

  lemma JournalNotOrphan(d: Disk, s: RunId, k: Journal, r: RunId)
    requires JournalStep(d, s, k) && r !in d.journals && !Owner(d, r)
    ensures s != r
  {
  }

  lemma ReceiptKeepsTerminal(d: Disk, s: RunId, rc: Receipt, r: RunId)
    requires ReceiptStep(d, s, rc) && r in d.receipts && d.receipts[r].phase == Terminal
    ensures Apply(PutReceipt(s, rc), d).receipts[r] == d.receipts[r]
  {
  }

  lemma UnfinishedKeepsPermits(d: Disk, s: RunId, r: RunId)
    requires r in d.orphans ==> r !in d.journals && !Owner(d, r)
    requires Allowed(ReleaseUnfinished(s), d)
    ensures PermitOf(Apply(ReleaseUnfinished(s), d), r) == PermitOf(d, r)
  {
  }

  lemma StepKeepsPermits(op: Op, d: Disk, r: RunId)
    requires Inv(d) && Allowed(op, d) && PermitOf(d, r).Some?
    ensures PermitOf(Apply(op, d), r) == PermitOf(d, r)
  {
    hide Inv, JournalStep;
    if r in d.orphans { OrphanUnjournalled(d, r); }
    if op.PutJournal? {
      if r in d.journals {
        JournalKeepsPermit(d, op.run, op.journal, r);
      } else {
        JournalNotOrphan(d, op.run, op.journal, r);
      }
    } else if op.ReleaseUnfinished? {
      UnfinishedKeepsPermits(d, op.run, r);
    } else {
      hide Apply, Allowed;
      Writes(op, d);
    }
  }

  /** No effect forgets a begun swap, changes the permit of a journal, or rewrites a terminal receipt. */
  lemma StepKeepsRecords(op: Op, d: Disk, r: RunId)
    requires Inv(d) && Allowed(op, d)
    ensures r in d.swapped ==> r in Apply(op, d).swapped
    ensures PermitOf(d, r).Some? ==> PermitOf(Apply(op, d), r) == PermitOf(d, r)
    ensures r in d.receipts && d.receipts[r].phase == Terminal ==>
              r in Apply(op, d).receipts && Apply(op, d).receipts[r] == d.receipts[r]
  {
    hide Inv, JournalStep, ReceiptStep, PermitOf;
    if PermitOf(d, r).Some? { StepKeepsPermits(op, d, r); }
    if op.PutReceipt? && r in d.receipts && d.receipts[r].phase == Terminal {
      ReceiptKeepsTerminal(d, op.run, op.receipt, r);
    }
    if !op.PutReceipt? && !op.PersistentToBackup? {
      hide Apply, Allowed;
      Writes(op, d);
    }
  }

  lemma {:induction false} RunKeepsRecords(ops: seq<Op>, d: Disk, r: RunId)
    requires Inv(d) && Legal(ops, d)
    ensures r in d.swapped ==> r in Exec(ops, d).swapped
    ensures PermitOf(d, r).Some? ==> PermitOf(Exec(ops, d), r) == PermitOf(d, r)
    ensures r in d.receipts && d.receipts[r].phase == Terminal ==>
              r in Exec(ops, d).receipts && Exec(ops, d).receipts[r] == d.receipts[r]
  {
    hide Allowed, Apply, Inv, PermitOf;
    if ops != [] {
      var init := ops[..|ops| - 1];
      RunKeepsRecords(init, d, r);
      RunKeepsInv(init, d);
      StepKeepsRecords(ops[|ops| - 1], Exec(init, d), r);
    }
  }

  /** No swap begins before its permit is durably consumed, and no two swaps of a
      whole history, whichever runs and processes make them, share a permit. */
  lemma OneSwapPerPermit(ops: seq<Op>, tree: Tree, i: nat, k: nat)
    requires Legal(ops, Fresh(tree)) && i < k < |ops|
    requires ops[i].PersistentToBackup? && ops[k].PersistentToBackup?
    ensures var d, e := Exec(ops[..i], Fresh(tree)), Exec(ops[..k], Fresh(tree));
            && ops[i].run in d.journals && PermitConsumed(d, d.journals[ops[i].run])
            && ops[k].run in e.journals && PermitConsumed(e, e.journals[ops[k].run])
            && PermitOf(d, ops[i].run) != PermitOf(e, ops[k].run)
  {
    var start := Fresh(tree);
    var d, e := Exec(ops[..i], start), Exec(ops[..k], start);
    SwapsOfRun(ops, start, i, k) by { FreshInv(tree); }
  }

  lemma SwapsOfRun(ops: seq<Op>, start: Disk, i: nat, k: nat)
    requires Inv(start) && Legal(ops, start) && i < k < |ops|
    requires ops[i].PersistentToBackup? && ops[k].PersistentToBackup?
    ensures var d, e := Exec(ops[..i], start), Exec(ops[..k], start);
            && ops[i].run in d.journals && PermitConsumed(d, d.journals[ops[i].run])
            && ops[k].run in e.journals && PermitConsumed(e, e.journals[ops[k].run])
            && PermitOf(d, ops[i].run) != PermitOf(e, ops[k].run)
  {
    hide Legal, Exec, Inv, Allowed, Apply;
    var d, e := Exec(ops[..i], start), Exec(ops[..k], start);
    var next := Exec(ops[..i + 1], start);
    LegalAt(ops, start, i);
    LegalAt(ops, start, k);
    RunKeepsInv(ops[..i], start);
    RunKeepsInv(ops[..k], start);
    RunKeepsInv(ops[..i + 1], start) by { LegalPrefix(ops, start, i + 1); }
    SwapStep(d, ops[i].run);
    SwapStep(e, ops[k].run);
    LegalSuffix(ops[..k], start, i + 1);
    assert ops[..k][..i + 1] == ops[..i + 1];
    RunKeepsRecords(ops[..k][i + 1..], next, ops[i].run);
    assert ops[i].run in e.swapped;
    SwapPermits(e, ops[i].run, ops[k].run);
  }

  lemma SwapStep(d: Disk, r: RunId)
    requires Inv(d) && Allowed(PersistentToBackup(r), d)
    ensures r in d.journals && PermitConsumed(d, d.journals[r]) && r !in d.swapped
    ensures r in Apply(PersistentToBackup(r), d).swapped
    ensures Apply(PersistentToBackup(r), d).journals == d.journals
    ensures PermitOf(Apply(PersistentToBackup(r), d), r) == PermitOf(d, r)
  {
    assert JournalOk(d, r);
    BaseUnderLock(d, r);
  }

  lemma SwapPermits(d: Disk, r: RunId, s: RunId)
    requires Inv(d) && r in d.swapped && s in d.journals && s !in d.swapped
    ensures PermitOf(d, r) != PermitOf(d, s)
  {
    assert JournalOk(d, s);
    if r in d.orphans { assert OrphanOk(d, r); } else { assert JournalOk(d, r); }
  }

  lemma BaseUnderLock(d: Disk, r: RunId)
    requires TreesOk(d) && Owner(d, r) && InState(d, r, Promoting) && r !in d.backups
    ensures d.persistent.Some?
  {
  }

  // --------------------------------------------------------- exact promotion

  /** Every run the database names or a journal acknowledges promoted exactly the
      proposal its consumed permit names, which is the tree the verifier read,
      with complete and passing evidence, over the base the permit was issued on; and
      the check before its swap saw the View and the evaluation context of the permit. */
  lemma ExactPromotion(ops: seq<Op>, tree: Tree, r: RunId)
    requires Legal(ops, Fresh(tree))
    requires var d := Exec(ops, Fresh(tree));
             r in d.journals && d.journals[r].kind == Promotion && (DbNames(d, r) || InState(d, r, Acknowledged))
    ensures var d := Exec(ops, Fresh(tree));
            var j := d.journals[r];
            && PermitConsumed(d, j) && d.permits[j.permit].run == r
            && r in d.confirmed && j.binding == Some(d.confirmed[r])
            && d.permits[j.permit].grant == ProposalGrant(j.base, d.confirmed[r], j.target, j.target, true, true)
            && (Owner(d, r) ==> d.persistent == Some(j.target))
            && (DbNames(d, r) ==> d.db.value.live == j.target)
            && (r in d.receipts && d.receipts[r].phase == Terminal ==>
                  d.receipts[r].decision == Committed && d.receipts[r].final == j.target)
  {
    var d := Exec(ops, Fresh(tree));
    assert Inv(d) by {
      hide Inv, Exec, Legal, Fresh;
      FreshInv(tree);
      RunKeepsInv(ops, Fresh(tree));
    }
    hide Exec, Legal, Fresh;
    assert JournalOk(d, r);
    if r in d.receipts { assert ReceiptOk(d, r); }
  }

  /** At the commit point itself the live tree is the journalled target, the run
      holds the lock, and the head version records the target's versioned part. */
  lemma CommitPoint(d: Disk, r: RunId)
    requires Inv(d) && Allowed(CommitDatabase(r), d)
    ensures d.persistent == Some(d.journals[r].target) && d.lock == Some(Lock(r, d.journals[r].base))
    ensures PermitConsumed(d, d.journals[r]) && r in d.swapped
    ensures d.versions[d.head.value].snapshot == d.journals[r].target.versioned
  {
    assert JournalOk(d, r) && VersionOk(d, d.head.value);
  }

  // --------------------------------------------------------- one deciding step

  /** The tree a crash at this point must end in. */
  function Fate(d: Disk): Option<Tree> {
    match d.lock
    case None => d.persistent
    case Some(Lock(r, tree)) => if DbNames(d, r) && r in d.journals then Some(d.journals[r].target) else Some(tree)
  }

  predicate Decides(op: Op) { op.CommitDatabase? || op.Regenerate? || op.ReleaseUnfinished? }

  /** The commit moves the outcome from the admitted base to the journalled target. */
  lemma TheCommitDecides(d: Disk, r: RunId)
    requires Inv(d) && Allowed(CommitDatabase(r), d)
    ensures Fate(d) == Some(d.journals[r].base)
    ensures Fate(Apply(CommitDatabase(r), d)) == Some(d.journals[r].target)
  {
    CommitPoint(d, r);
    assert JournalOk(d, r) && VersionOk(d, d.head.value);
  }

  /** What makes an unfinished release wrong: it moves the outcome from the base to the
      swapped tree although the database still names neither the run nor that tree. */
  lemma UnfinishedReleaseDecides(d: Disk, r: RunId)
    requires Inv(d) && Allowed(ReleaseUnfinished(r), d)
    ensures Fate(d) == Some(d.journals[r].base)
    ensures var e := Apply(ReleaseUnfinished(r), d);
            Fate(e) == Some(d.journals[r].target) && e.db == d.db && !DbNames(e, r) && e.lock.None?
  {
    assert JournalOk(d, r);
  }

  /** No other effect than the database commit moves the outcome of a transaction:
      not the swap, not its undoing, not taking or releasing the lock, and no
      step of recovery. */
  lemma OnlyTheCommitDecides(op: Op, d: Disk)
    requires Inv(d) && Allowed(op, d) && !Decides(op)
    ensures Fate(Apply(op, d)) == Fate(d)
  {
    hide AuditOk;
    if op.Admit? || op.Release? {
      assert Fate(Apply(op, d)) == Fate(d) by { hide JournalsOk, VersionOk; }
    } else if op.PutJournal? {
      FateOfJournal(d, op.run, op.journal);
    } else {
      hide *;
      FateSame(op, d);
    }
  }

  lemma FateOfJournal(d: Disk, r: RunId, k: Journal)
    requires Inv(d) && Allowed(PutJournal(r, k), d)
    ensures Fate(Apply(PutJournal(r, k), d)) == Fate(d)
  {
    hide AuditOk, TreesOk, JournalsOk;
  }

  lemma FateSame(op: Op, d: Disk)
    requires Inv(d) && Allowed(op, d) && !Decides(op) && !op.Admit? && !op.Release? && !op.PutJournal?
    ensures Fate(Apply(op, d)) == Fate(d)
  {
    hide AuditOk, JournalsOk, VersionsOk;
    if d.lock.None? { assert d.backups.Keys == {} && d.persistent.Some?; }
  }

  lemma {:induction false} FateOfRun(ops: seq<Op>, d: Disk)
    requires Inv(d) && Legal(ops, d) && (forall op <- ops :: !Decides(op))
    ensures Fate(Exec(ops, d)) == Fate(d)
  {
    hide Inv, Allowed, Apply, Fate;
    if ops != [] {
      var init := ops[..|ops| - 1];
      FateOfRun(init, d);
      RunKeepsInv(init, d);
      OnlyTheCommitDecides(ops[|ops| - 1], Exec(init, d));
    }
  }

  /** The outcome has the content the database head names. */
  predicate Faithful(d: Disk) {
    Fate(d).Some? && d.db.Some? && Fate(d).value.versioned == d.db.value.live.versioned
  }

  lemma CommitIsFaithful(d: Disk, r: RunId)
    requires Inv(d) && Allowed(CommitDatabase(r), d)
    ensures Faithful(Apply(CommitDatabase(r), d))
  {
    CommitPoint(d, r);
    TheCommitDecides(d, r);
    hide Inv, Allowed, Fate;
  }

  lemma StepFaithIff(op: Op, d: Disk)
    requires Inv(d) && Allowed(op, d) && !op.ReleaseUnfinished?
    ensures Faithful(Apply(op, d)) <==> Faithful(d) || op.CommitDatabase?
  {
    hide Inv;
    if op.CommitDatabase? {
      CommitIsFaithful(d, op.run);
    } else if !op.Regenerate? {
      OnlyTheCommitDecides(op, d);
      hide Apply, Allowed, Fate;
      Writes(op, d);
    }
  }

  /** A lost commit is made good by the next commit and by nothing else: as long as no
      lock is released over an unfinished swap, the outcome of a crash has the content
      the database names exactly if it had it at the start or the history commits. */
  lemma {:induction false} FaithfulIff(ops: seq<Op>, d: Disk)
    requires Inv(d) && Legal(ops, d) && (forall op <- ops :: !op.ReleaseUnfinished?)
    ensures Faithful(Exec(ops, d)) <==> Faithful(d) || exists op <- ops :: op.CommitDatabase?
  {
    hide Inv, Allowed, Apply, Faithful;
    if ops != [] {
      var init, last := ops[..|ops| - 1], ops[|ops| - 1];
      FaithfulIff(init, d);
      RunKeepsInv(init, d);
      StepFaithIff(last, Exec(init, d));
      assert ops == init + [last];
    }
  }

  /** As long as no lock is released over an unfinished swap, the outcome of every
      crash has the content the database head names. */
  lemma GuardedRunsAreFaithful(ops: seq<Op>, tree: Tree)
    requires Legal(ops, Fresh(tree)) && (forall op <- ops :: !op.ReleaseUnfinished?)
    ensures Faithful(Exec(ops, Fresh(tree)))
  {
    FreshInv(tree);
    FreshIsFaithful(tree);
    hide Inv, Legal, Exec, Faithful;
    FaithfulIff(ops, Fresh(tree));
  }

  lemma FreshIsFaithful(tree: Tree)
    ensures Faithful(Fresh(tree))
  {
  }

  // ------------------------------------------------------------- audit records

  /** The recovery audit of a whole history never repeats an event and never
      reports one run both as committed and as rolled back. */
  lemma AuditIsConsistent(ops: seq<Op>, tree: Tree, i: nat, k: nat)
    requires Legal(ops, Fresh(tree)) && i < k < |Exec(ops, Fresh(tree)).events|
    ensures var d := Exec(ops, Fresh(tree));
            && !SameEvent(d.events[i], d.events[k])
            && (d.events[i].run == d.events[k].run ==> d.events[i].kind == d.events[k].kind)
            && (d.events[i].kind == RecoveryAcknowledged ==> InState(d, d.events[i].run, Acknowledged))
  {
    var d := Exec(ops, Fresh(tree));
    assert AuditOk(d) by {
      hide AuditOk, Exec, Legal, Fresh;
      FreshInv(tree);
      RunKeepsInv(ops, Fresh(tree));
    }
    assert EventOk(d, d.events[i]) && EventOk(d, d.events[k]);
  }
}
