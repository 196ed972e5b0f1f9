/**
 The process that works on an agent's durable state.  Every durable effect goes
 through `Do`, which may fail without effect; a process kill is a call sequence
 that simply ends.  The ghost log records the run, so every theorem about runs
 applies to whatever the methods of the later modules have done so far.
 */
module HostState {
  import opened Wrappers
  import opened Protocol
  import opened Runs

  class Host {
    ghost const start: Disk
    ghost var log: seq<Op>
    var disk: Disk
    /** Some effect or read has failed since the process began to watch. */
    var faulted: bool

    ghost predicate Valid()
      reads `log, `disk
    {
      Inv(start) && Legal(log, start) && disk == Exec(log, start) && Inv(disk)
    }

    constructor (tree: Tree)
      ensures Valid() && disk == Fresh(tree) && start == Fresh(tree) && log == [] && !faulted
    {
      start, log, disk, faulted := Fresh(tree), [], Fresh(tree), false;
      new;
      FreshInv(tree);
    }

    /** One durable effect: it happens as a whole, or it fails and changes nothing. */
    method Do(op: Op) returns (ok: bool)
      requires Valid() && Allowed(op, disk)
      modifies this
      ensures Valid()
      ensures ok ==> disk == Apply(op, old(disk)) && log == old(log) + [op]
      ensures !ok ==> disk == old(disk) && log == old(log)
      ensures Remembered(ok, faulted, old(faulted))
      ensures !Decides(op) ==> Fate(disk) == old(Fate(disk))
    {
      hide Inv, Allowed, Apply, Fate;
      ok := *;
      if ok {
        StepKeepsInv(op, disk);
        if !Decides(op) { OnlyTheCommitDecides(op, disk); }
        assert (log + [op])[..|log|] == log;
        disk := Apply(op, disk);
        log := log + [op];
      } else {
        faulted := true;
      }
    }

    /** A read of the live tree's manifest, which may fail. */
    method ReadLive() returns (tree: Option<Tree>)
      requires Valid()
      modifies this`faulted
      ensures Valid()
      ensures tree.Some? ==> disk.persistent == tree && faulted == old(faulted)
      ensures tree.None? && disk.persistent.Some? ==> faulted
      ensures old(faulted) ==> faulted
    {
      hide Valid;
      tree := disk.persistent;
      var fails: bool := *;
      if fails {
        tree, faulted := None, true;
      }
    }

    /** Any other step that can throw without a durable effect. */
    method Attempt() returns (ok: bool)
      requires Valid()
      modifies this`faulted
      ensures Valid()
      ensures ok ==> faulted == old(faulted)
      ensures !ok ==> faulted
    {
      hide Valid;
      ok := *;
      faulted := faulted || !ok;
    }

    /** Atomic journal write. */
    method WriteJournal(r: RunId, j: Journal) returns (ok: bool)
      requires Valid() && JournalStep(disk, r, j)
      modifies this
      ensures Valid() && Fate(disk) == old(Fate(disk)) && Remembered(ok, faulted, old(faulted))
      ensures disk == old(disk).(journals := if ok then old(disk).journals[r := j] else old(disk).journals)
    {
      hide Valid, Fate, JournalStep;
      ok := Do(PutJournal(r, j));
    }

    /** rename(persistent, backup) */
    method RenameToBackup(r: RunId) returns (ok: bool)
      requires Valid() && Owner(disk, r) && InState(disk, r, Promoting) && r !in disk.swapped && r !in disk.backups
      requires disk.persistent.Some?
      modifies this
      ensures Valid() && Fate(disk) == old(Fate(disk)) && Remembered(ok, faulted, old(faulted))
      ensures disk == old(disk).(persistent := if ok then None else old(disk).persistent,
                                 backups := if ok then old(disk).backups[r := old(disk).persistent.value] else old(disk).backups,
                                 swapped := if ok then old(disk).swapped + {r} else old(disk).swapped)
    {
      hide Valid, Fate;
      ok := Do(PersistentToBackup(r));
    }

    /** rename(staging, persistent) */
    method RenameStaging(r: RunId) returns (ok: bool)
      requires Valid() && Owner(disk, r) && InState(disk, r, Promoting) && r in disk.backups && disk.persistent.None?
      requires r in disk.staging && disk.staging[r] == disk.journals[r].target
      modifies this
      ensures Valid() && Fate(disk) == old(Fate(disk)) && Remembered(ok, faulted, old(faulted))
      ensures disk == old(disk).(persistent := if ok then Some(old(disk).staging[r]) else old(disk).persistent,
                                 staging := if ok then old(disk).staging - {r} else old(disk).staging)
    {
      hide Valid, Fate;
      ok := Do(StagingToPersistent(r));
    }

    /** rename(persistent, failed) */
    method RenameToFailed(r: RunId) returns (ok: bool)
      requires Valid() && Owner(disk, r) && Swapping(disk, r) && r in disk.backups && disk.persistent.Some? && !DbNames(disk, r)
      modifies this
      ensures Valid() && Fate(disk) == old(Fate(disk)) && Remembered(ok, faulted, old(faulted))
      ensures disk == old(disk).(persistent := if ok then None else old(disk).persistent,
                                 failed := if ok then old(disk).failed + [old(disk).persistent.value] else old(disk).failed)
    {
      hide Valid, Fate;
      ok := Do(PersistentToFailed(r));
    }

    /** rename(backup, persistent) */
    method RenameBackup(r: RunId) returns (ok: bool)
      requires Valid() && Owner(disk, r) && Swapping(disk, r) && r in disk.backups && disk.persistent.None? && !DbNames(disk, r)
      modifies this
      ensures Valid() && Fate(disk) == old(Fate(disk)) && Remembered(ok, faulted, old(faulted))
      ensures disk == old(disk).(persistent := if ok then Some(old(disk).backups[r]) else old(disk).persistent,
                                 backups := if ok then old(disk).backups - {r} else old(disk).backups)
    {
      hide Valid, Fate;
      ok := Do(BackupToPersistent(r));
    }

    /** Atomic rewrite of a stored permit with its next state. */
    method SetPermit(id: PermitId, s: PermitState) returns (ok: bool)
      requires Valid() && id in disk.permits && PermitStep(disk, id, disk.permits[id].(state := s))
      modifies this
      ensures Valid() && Fate(disk) == old(Fate(disk)) && Remembered(ok, faulted, old(faulted))
      ensures disk == old(disk).(
                permits := if ok then old(disk).permits[id := old(disk).permits[id].(state := s)] else old(disk).permits)
    {
      hide Valid, Fate, PermitStep;
      ok := Do(PutPermit(id, disk.permits[id].(state := s)));
    }

    /** Atomic write of a new permit under a fresh id. */
    method IssuePermit(id: PermitId, p: Permit) returns (ok: bool)
      requires Valid() && id !in disk.permits && p.state == Issued
      modifies this
      ensures Valid() && Fate(disk) == old(Fate(disk)) && Remembered(ok, faulted, old(faulted))
      ensures disk == old(disk).(permits := if ok then old(disk).permits[id := p] else old(disk).permits)
    {
      hide Valid, Fate;
      ok := Do(PutPermit(id, p));
    }

    /** Atomic receipt write. */
    method WriteReceipt(r: RunId, rc: Receipt) returns (ok: bool)
      requires Valid() && ReceiptStep(disk, r, rc)
      modifies this
      ensures Valid() && Fate(disk) == old(Fate(disk)) && Remembered(ok, faulted, old(faulted))
      ensures disk == old(disk).(receipts := if ok then old(disk).receipts[r := rc] else old(disk).receipts)
    {
      hide Valid, Fate, ReceiptStep;
      ok := Do(PutReceipt(r, rc));
    }

    /** The new head of the version index, written in one atomic file replacement. */
    method AppendVersion(r: RunId, id: VersionId, v: Version) returns (ok: bool)
      requires Valid() && Allowed(RecordVersion(r, id, v), disk)
      modifies this
      ensures Valid() && Fate(disk) == old(Fate(disk)) && Remembered(ok, faulted, old(faulted))
      ensures disk == old(disk).(versions := if ok then old(disk).versions[id := v] else old(disk).versions,
                                 head := if ok then Some(id) else old(disk).head)
    {
      hide Valid, Fate, Allowed;
      ok := Do(RecordVersion(r, id, v));
    }

    /** The run's version taken off the head of the index. */
    method DropVersion(r: RunId) returns (ok: bool)
      requires Valid() && Allowed(RevertVersion(r), disk)
      modifies this
      ensures Valid() && Fate(disk) == old(Fate(disk)) && Remembered(ok, faulted, old(faulted))
      ensures disk == if ok then Apply(RevertVersion(r), old(disk)) else old(disk)
    {
      hide Valid, Fate, Allowed, Apply;
      ok := Do(RevertVersion(r));
    }

    /** The database mutation that publishes the run: the commit point. */
    method PublishHead(r: RunId) returns (ok: bool)
      requires Valid() && Allowed(CommitDatabase(r), disk)
      modifies this
      ensures Valid() && Remembered(ok, faulted, old(faulted))
      ensures !ok ==> disk == old(disk)
      ensures ok ==> disk == old(disk).(db := disk.db) && DbNames(disk, r)
      ensures ok ==> disk.db.value.version == disk.head.value && disk.head.Some?
    {
      hide Valid, Allowed;
      ghost var before := disk;
      assert disk.head.Some? && disk.head.value in disk.versions && r in disk.journals && HeadIsRun(disk, r) by { CommitRules(disk, r); }
      ok := Do(CommitDatabase(r));
    }

    /** One new recovery event file. */
    method AddEvent(e: Event) returns (ok: bool)
      requires Valid() && Allowed(AppendEvent(e), disk)
      modifies this
      ensures Valid() && Fate(disk) == old(Fate(disk)) && Remembered(ok, faulted, old(faulted))
      ensures disk == old(disk).(events := if ok then old(disk).events + [e] else old(disk).events)
    {
      hide Valid, Fate, Allowed;
      ok := Do(AppendEvent(e));
    }

    /** The database mutation that admits a run: the agent is locked for it. */
    method AdmitRun(r: RunId) returns (ok: bool)
      requires Valid() && disk.lock.None? && disk.persistent.Some?
      requires r !in disk.journals && r !in disk.receipts && r !in disk.swapped
      modifies this
      ensures Valid() && Fate(disk) == old(Fate(disk)) && Remembered(ok, faulted, old(faulted))
      ensures disk == old(disk).(lock := if ok then Some(Lock(r, old(disk).persistent.value)) else old(disk).lock)
    {
      hide Valid, Fate;
      ok := Do(Admit(r));
    }

    /** The database mutation that makes the agent ready again. */
    method ReleaseAgent() returns (ok: bool)
      requires Valid() && Settled(disk)
      modifies this
      ensures Valid() && Fate(disk) == old(Fate(disk)) && Remembered(ok, faulted, old(faulted))
      ensures disk == old(disk).(lock := if ok then None else old(disk).lock)
    {
      hide Valid, Fate, Settled;
      ok := Do(Release);
    }

    /** The same mutation where the code makes it over an unfinished swap. */
    method ReleaseOverSwap(r: RunId) returns (ok: bool)
      requires Valid() && Allowed(ReleaseUnfinished(r), disk)
      modifies this
      ensures Valid() && Remembered(ok, faulted, old(faulted))
      ensures !ok ==> disk == old(disk)
      ensures ok ==> r in old(disk).journals && r in old(disk).backups
      ensures ok ==> disk == old(disk).(lock := None, journals := old(disk).journals - {r}, backups := old(disk).backups - {r},
                                        orphans := old(disk).orphans[r := Orphan(old(disk).journals[r], old(disk).backups[r])])
    {
      hide Valid;
      ok := Do(ReleaseUnfinished(r));
    }

    /** What the check of View and context saw; it is part of the history, not of the disk. */
    method SawView(r: RunId, seen: ViewBinding)
      requires Valid() && Owner(disk, r) && InState(disk, r, Preparing)
      modifies this
      ensures Valid() && Fate(disk) == old(Fate(disk)) && faulted == old(faulted)
      ensures disk == old(disk).(confirmed := old(disk).confirmed[r := seen])
    {
      hide Inv, Fate;
      var op := ConfirmView(r, seen);
      StepKeepsInv(op, disk);
      OnlyTheCommitDecides(op, disk);
      assert (log + [op])[..|log|] == log;
      disk := Apply(op, disk);
      log := log + [op];
    }

    /** Recursive removal of the staging tree. */
    method DeleteStaging(r: RunId) returns (ok: bool)
      requires Valid()
      modifies this
      ensures Valid() && Fate(disk) == old(Fate(disk)) && Remembered(ok, faulted, old(faulted))
      ensures disk == old(disk).(staging := if ok then old(disk).staging - {r} else old(disk).staging)
    {
      hide Valid, Fate;
      ok := Do(RemoveStaging(r));
    }

    /** The copy into the staging directory. */
    method FillStaging(r: RunId, tree: Tree) returns (ok: bool)
      requires Valid()
      modifies this
      ensures Valid() && Fate(disk) == old(Fate(disk)) && Remembered(ok, faulted, old(faulted))
      ensures disk == old(disk).(staging := if ok then old(disk).staging[r := tree] else old(disk).staging)
    {
      hide Valid, Fate;
      ok := Do(PutStaging(r, tree));
    }

    /** Recursive removal of the backup: killed or failing half way it leaves a torn tree. */
    method DeleteBackup(r: RunId, remains: Tree) returns (ok: bool)
      requires Valid() && (r in disk.backups ==> PastTheCommit(disk, r))
      modifies this
      ensures Valid() && Fate(disk) == old(Fate(disk))
      ensures ok ==> disk == old(disk).(backups := old(disk).backups - {r}) && faulted == old(faulted)
      ensures !ok ==> faulted && disk == old(disk).(backups := disk.backups) && disk.backups.Keys == old(disk).backups.Keys
      ensures !ok ==> forall s <- disk.backups :: s != r ==> disk.backups[s] == old(disk).backups[s]
    {
      hide Valid, Inv, Fate;
      var tears: bool := *;
      if tears && r in disk.backups {
        ok := Do(TearBackup(r, remains));
        ok, faulted := false, true;
      } else {
        ok := Do(RemoveBackup(r));
      }
    }
  }

  lemma HostInv(h: Host)
    requires h.Valid()
    ensures Inv(h.disk)
  {
  }

  lemma CommitRules(d: Disk, r: RunId)
    requires Allowed(CommitDatabase(r), d)
    ensures HeadIsRun(d, r) && r in d.journals
  {
  }

  /** A failed step is remembered, a successful one is not held against the process. */
  predicate Remembered(ok: bool, faulted: bool, before: bool) { faulted == (before || !ok) }

  predicate PastTheCommit(d: Disk, r: RunId) { InState(d, r, PendingDb) && DbNames(d, r) }
}
