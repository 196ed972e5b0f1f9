/**
 The durable state of one agent under the commit gate, the atomic effects the
 code has on it, and the rules under which the code applies each effect.

 A process may be killed between any two effects, so a property that has to
 survive a kill is a property of every state that a rule-abiding sequence of
 effects can reach.  Class `HostState.Host` performs these effects one at a
 time and may only do so where `Allowed` holds.
 */
module Protocol {
  import opened Wrappers

  type RunId = string
  type PermitId = string
  type VersionId = nat

  /** A workspace up to its manifest hash; hashing is injective, so the two
      class-wise manifests stand for their hashes and the pair for the full one. */
  datatype Tree = Tree(versioned: string, managed: string)

  datatype Kind = Promotion | Rollback
  datatype JournalState = Preparing | Promoting | PendingDb | Acknowledged | RolledBack
  /** The View a promotion is based on, and the evaluation context of its evidence. */
  datatype ViewBinding = ViewBinding(view: string, context: string)
  datatype Journal = Journal(kind: Kind, state: JournalState, base: Tree, target: Tree,
                             permit: PermitId, targetVersion: Option<VersionId>, binding: Option<ViewBinding>)

  datatype PermitState = Issued | Consuming | Consumed | Revoked
  /** What a permit authorises: a verified proposal, or a recorded snapshot. */
  datatype Grant =
    | ProposalGrant(base: Tree, binding: ViewBinding, proposal: Tree, verified: Tree, complete: bool, passed: bool)
    | SnapshotGrant(base: Tree, snapshot: string, version: VersionId)
  datatype Permit = Permit(state: PermitState, run: RunId, grant: Grant)

  datatype VersionKind = Initial | AgentCommit | RollbackCommit
  datatype Version = Version(kind: VersionKind, snapshot: string, parent: Option<VersionId>,
                             rollbackTarget: Option<VersionId>, run: Option<RunId>)
  datatype DbHead = DbHead(version: VersionId, live: Tree, run: Option<RunId>, kind: VersionKind)

  datatype Phase = PendingPromotion | PendingDisposition | Terminal
  datatype Decision = Committed | Quarantined | Conflicted | Aborted
  datatype Receipt = Receipt(phase: Phase, decision: Decision, base: Tree, final: Tree,
                             version: Option<VersionId>, resumed: bool, epoch: nat)
  datatype EventType = RecoveryAcknowledged | RecoveryRolledBack
  datatype Event = Event(run: RunId, kind: EventType, original: Option<Decision>, final: Option<Tree>)

  /** The admission lock of the agent row: its run, and the tree it was admitted on. */
  datatype Lock = Lock(run: RunId, tree: Tree)

  /** A swap whose lock was released before it was finished: its journal still waits
      for the database and its backup is still there. */
  datatype Orphan = Orphan(journal: Journal, backup: Tree)

  /** The records of the runs the locks account for; those of orphaned swaps are kept
      apart in `orphans`, and `OnDisk` puts them back where they lie. */
  datatype Disk = Disk(
    persistent: Option<Tree>,
    staging: map<RunId, Tree>,
    backups: map<RunId, Tree>,
    failed: seq<Tree>,
    journals: map<RunId, Journal>,
    permits: map<PermitId, Permit>,
    versions: map<VersionId, Version>,
    head: Option<VersionId>,
    db: Option<DbHead>,
    receipts: map<RunId, Receipt>,
    events: seq<Event>,
    lock: Option<Lock>,
    orphans: map<RunId, Orphan>,
    swapped: set<RunId>,                // history only: the runs whose rename-swap has begun
    confirmed: map<RunId, ViewBinding>)     // history only: what the check before the swap saw

  datatype Op =
    | Admit(run: RunId)
    | Release
    | ReleaseUnfinished(run: RunId)
    | Regenerate(managed: string)
    | PutPermit(key: PermitId, permit: Permit)
    | PutReceipt(run: RunId, receipt: Receipt)
    | PutStaging(run: RunId, tree: Tree)
    | RemoveStaging(run: RunId)
    | PutJournal(run: RunId, journal: Journal)
    | ConfirmView(run: RunId, seen: ViewBinding)
    | PersistentToBackup(run: RunId)
    | StagingToPersistent(run: RunId)
    | PersistentToFailed(run: RunId)
    | BackupToPersistent(run: RunId)
    | TearBackup(run: RunId, remains: Tree)
    | RemoveBackup(run: RunId)
    | RecordVersion(run: RunId, id: VersionId, version: Version)
    | RevertVersion(run: RunId)
    | CommitDatabase(run: RunId)
    | AppendEvent(event: Event)

  function Expected(kind: Kind): VersionKind {
    if kind == Rollback then RollbackCommit else AgentCommit
  }

  predicate Owner(d: Disk, r: RunId) { d.lock.Some? && d.lock.value.run == r }

  predicate InState(d: Disk, r: RunId, s: JournalState) { r in d.journals && d.journals[r].state == s }

  predicate Swapping(d: Disk, r: RunId) { InState(d, r, Promoting) || InState(d, r, PendingDb) }

  /** The database head was written by run `r`: the commit point of its transaction. */
  predicate DbNames(d: Disk, r: RunId) { d.db.Some? && d.db.value.run == Some(r) }

  /** The files as recovery finds them. */
  function OnDisk(d: Disk): Disk {
    d.(journals := d.journals + map r <- d.orphans :: d.orphans[r].journal,
       backups := d.backups + map r <- d.orphans :: d.orphans[r].backup,
       orphans := map[])
  }

  predicate HeadIsRun(d: Disk, r: RunId) {
    d.head.Some? && d.head.value in d.versions && d.versions[d.head.value].run == Some(r)
  }

  // ---------------------------------------------------------------- effects

  /** The physical effect of one atomic operation, whatever the state it meets. */
  function Apply(op: Op, d: Disk): Disk {
    match op
    case Admit(r) =>
      if d.persistent.Some? then d.(lock := Some(Lock(r, d.persistent.value))) else d
    case Release => d.(lock := None)
    case ReleaseUnfinished(r) =>
      if r in d.journals && r in d.backups then
        d.(lock := None, journals := d.journals - {r}, backups := d.backups - {r},
           orphans := d.orphans[r := Orphan(d.journals[r], d.backups[r])])
      else d
    case Regenerate(m) =>
      if d.persistent.Some? then d.(persistent := Some(d.persistent.value.(managed := m))) else d
    case PutPermit(id, p) => d.(permits := d.permits[id := p])
    case PutReceipt(r, receipt) => d.(receipts := d.receipts[r := receipt])
    case PutStaging(r, t) => d.(staging := d.staging[r := t])
    case RemoveStaging(r) => d.(staging := d.staging - {r})
    case PutJournal(r, j) => d.(journals := d.journals[r := j])
    case ConfirmView(r, seen) => d.(confirmed := d.confirmed[r := seen])
    case PersistentToBackup(r) =>
      if d.persistent.None? then d
      else d.(persistent := None, backups := d.backups[r := d.persistent.value], swapped := d.swapped + {r})
    case StagingToPersistent(r) =>
      if r !in d.staging then d
      else d.(persistent := Some(d.staging[r]), staging := d.staging - {r})
    case PersistentToFailed(r) =>
      if d.persistent.None? then d
      else d.(persistent := None, failed := d.failed + [d.persistent.value])
    case BackupToPersistent(r) =>
      if r !in d.backups then d
      else d.(persistent := Some(d.backups[r]), backups := d.backups - {r})
    case TearBackup(r, t) => if r in d.backups then d.(backups := d.backups[r := t]) else d
    case RemoveBackup(r) => d.(backups := d.backups - {r})
    case RecordVersion(r, id, v) => d.(versions := d.versions[id := v], head := Some(id))
    case RevertVersion(r) =>
      if HeadIsRun(d, r) then
        d.(versions := d.versions - {d.head.value}, head := d.versions[d.head.value].parent)
      else d
    case CommitDatabase(r) =>
      if d.head.Some? && d.head.value in d.versions && r in d.journals then
        d.(db := Some(DbHead(d.head.value, d.journals[r].target, d.versions[d.head.value].run,
                             d.versions[d.head.value].kind)))
      else d
    case AppendEvent(e) => d.(events := d.events + [e])
  }

  // ------------------------------------------------------------------ rules

  predicate SameButState(j: Journal, k: Journal) { k == j.(state := k.state) }

  /** The permit of a journal authorises exactly the swap the journal describes. */
  predicate Covers(g: Grant, j: Journal) {
    match g
    case ProposalGrant(base, binding, proposal, verified, complete, passed) =>
      j.kind == Promotion && j.base == base && j.binding == Some(binding) && j.target == proposal == verified && complete && passed
    case SnapshotGrant(base, snapshot, version) =>
      j.kind == Rollback && j.base == base && j.target.versioned == snapshot && j.targetVersion == Some(version) &&
      j.binding == None
  }

  predicate PermitConsumed(d: Disk, j: Journal) {
    j.permit in d.permits && d.permits[j.permit].state == Consumed
  }

  /** The check before the swap saw the View and the context the journal names. */
  predicate Confirmed(seen: map<RunId, ViewBinding>, r: RunId, j: Journal) {
    j.binding.Some? ==> r in seen && seen[r] == j.binding.value
  }

  predicate TargetRecorded(d: Disk, r: RunId, j: Journal) {
    j.kind == Rollback ==>
      j.targetVersion.Some? && j.targetVersion.value in d.versions &&
      d.versions[j.targetVersion.value].snapshot == j.target.versioned &&
      d.versions[j.targetVersion.value].run != Some(r)
  }

  predicate JournalStep(d: Disk, r: RunId, k: Journal) {
    if r !in d.journals then
      && k.state == Preparing && Owner(d, r) && k.permit in d.permits
      && d.permits[k.permit].run == r && Covers(d.permits[k.permit].grant, k)
      && TargetRecorded(d, r, k)
      && (forall e <- d.events :: e.run != r)
      && (if k.kind == Promotion then
            r in d.receipts && d.receipts[r].phase == PendingPromotion &&
            d.receipts[r].base == k.base && d.receipts[r].final == k.target
          else r !in d.receipts)
    else
      var j := d.journals[r];
      SameButState(j, k) &&
      match (j.state, k.state)
      case (Preparing, RolledBack) => true
      case (Preparing, Promoting) =>
        && Owner(d, r) && d.persistent == Some(j.base) && PermitConsumed(d, j) && Confirmed(d.confirmed, r, j)
        && r in d.staging && d.staging[r] == j.target
        && (r in d.receipts ==> d.receipts[r].phase == PendingPromotion)
      case (Promoting, PendingDb) => r in d.backups && d.persistent == Some(j.target)
      case (Promoting, RolledBack) => r !in d.backups && d.persistent == Some(j.base)
      case (PendingDb, RolledBack) => r !in d.backups && d.persistent == Some(j.base) && !DbNames(d, r)
      case (PendingDb, Acknowledged) => r !in d.backups && DbNames(d, r)
      case _ => false
  }

  predicate PermitStep(d: Disk, id: PermitId, p: Permit) {
    if id !in d.permits then p.state == Issued
    else
      && p == d.permits[id].(state := p.state)
      && match (d.permits[id].state, p.state)
         case (Issued, Consuming) => true
         case (Issued, Revoked) => true
         case (Consuming, Consumed) => true
         case (Consuming, Revoked) => true
         case _ => false
  }

  predicate ReceiptStep(d: Disk, r: RunId, rc: Receipt) {
    && (r in d.receipts && d.receipts[r].phase == Terminal ==> rc == d.receipts[r])
    && match rc.phase
       case PendingPromotion =>
         && rc.decision == Committed && Owner(d, r)
         && (if r in d.journals then
               d.journals[r].kind == Promotion && rc.base == d.journals[r].base && rc.final == d.journals[r].target &&
               InState(d, r, PendingDb)
             else rc.base == d.lock.value.tree)
       case PendingDisposition =>
         rc.decision != Committed && (r in d.journals ==> d.journals[r].state in {Preparing, RolledBack})
       case Terminal =>
         if rc.decision == Committed then InState(d, r, Acknowledged) && rc.final == d.journals[r].target
         else r in d.journals ==> d.journals[r].state in {Preparing, RolledBack}
  }

  /** No two appended events agree on run, type and final hash. */
  predicate SameEvent(e: Event, f: Event) { e.run == f.run && e.kind == f.kind && e.final == f.final }

  predicate Settled(d: Disk) {
    && d.lock.Some?
    && var r := d.lock.value.run;
    && !Swapping(d, r)
    && d.db.Some? && d.head == Some(d.db.value.version)
    && (r in d.receipts && d.receipts[r].phase == PendingPromotion && r in d.journals ==>
          d.journals[r].state in {Preparing, RolledBack})
  }

  predicate StagedVersion(d: Disk, r: RunId, v: Version) {
    && r in d.journals && d.db.Some?
    && v.run == Some(r) && v.kind == Expected(d.journals[r].kind)
    && v.parent == Some(d.db.value.version)
    && v.snapshot == d.journals[r].target.versioned
    && (d.journals[r].kind == Rollback ==> v.rollbackTarget == d.journals[r].targetVersion)
  }

  /** Where the code applies each effect. */
  predicate Allowed(op: Op, d: Disk) {
    match op
    case Admit(r) =>
      d.lock.None? && r !in d.journals && r !in d.receipts && r !in d.swapped
    case Release => Settled(d)
    case ReleaseUnfinished(r) =>
      && Owner(d, r) && InState(d, r, PendingDb) && d.journals[r].kind == Rollback && !DbNames(d, r)
      && d.db.Some? && d.head == Some(d.db.value.version) && r in d.backups && d.persistent == Some(d.journals[r].target)
    case Regenerate(_) => d.lock.None?
    case PutPermit(id, p) => PermitStep(d, id, p)
    case PutReceipt(r, rc) => ReceiptStep(d, r, rc)
    case PutStaging(_, _) => true
    case RemoveStaging(_) => true
    case PutJournal(r, j) => JournalStep(d, r, j)
    case ConfirmView(r, _) => Owner(d, r) && InState(d, r, Preparing)
    case PersistentToBackup(r) =>
      Owner(d, r) && InState(d, r, Promoting) && r !in d.swapped && r !in d.backups
    case StagingToPersistent(r) =>
      Owner(d, r) && InState(d, r, Promoting) && r in d.backups && d.persistent.None? &&
      r in d.staging && d.staging[r] == d.journals[r].target
    case PersistentToFailed(r) =>
      Owner(d, r) && Swapping(d, r) && r in d.backups && d.persistent.Some? && !DbNames(d, r)
    case BackupToPersistent(r) =>
      Owner(d, r) && Swapping(d, r) && r in d.backups && d.persistent.None? && !DbNames(d, r)
    case TearBackup(r, _) => InState(d, r, PendingDb) && DbNames(d, r)
    case RemoveBackup(r) => r in d.backups ==> InState(d, r, PendingDb) && DbNames(d, r)
    case RecordVersion(r, id, v) =>
      && Owner(d, r) && InState(d, r, PendingDb) && !DbNames(d, r) && d.db.Some?
      && d.head == Some(d.db.value.version) && id !in d.versions && StagedVersion(d, r, v)
    case RevertVersion(r) => HeadIsRun(d, r) && InState(d, r, RolledBack)
    case CommitDatabase(r) =>
      && Owner(d, r) && InState(d, r, PendingDb) && !DbNames(d, r) && HeadIsRun(d, r)
      && d.persistent == Some(d.journals[r].target)
    case AppendEvent(e) =>
      && (forall f <- d.events :: !SameEvent(e, f))
      && (if e.kind == RecoveryAcknowledged then InState(d, e.run, Acknowledged)
          else if e.run in d.journals then InState(d, e.run, RolledBack)
          else e.run in d.receipts)
  }

  // -------------------------------------------------------------- invariant

  /** Before the commit point the admitted base is at the live path or intact in the backup. */
  predicate BaseSafe(d: Disk, r: RunId, j: Journal) {
    || (r !in d.backups && d.persistent == Some(j.base))
    || (r in d.backups && d.backups[r] == j.base && (d.persistent.None? || d.persistent == Some(j.target)))
  }

  ghost predicate TreesOk(d: Disk) {
    match d.lock
    case None => d.persistent.Some? && d.backups.Keys == {}
    case Some(Lock(r, tree)) =>
      && d.backups.Keys <= {r}
      && if r !in d.journals then d.backups.Keys == {} && d.persistent == Some(tree)
         else
           var j := d.journals[r];
           match j.state
           case Preparing => r !in d.backups && d.persistent == Some(tree)
           case RolledBack => r !in d.backups && d.persistent == Some(tree)
           case Promoting => j.base == tree && BaseSafe(d, r, j)
           case PendingDb =>
             j.base == tree && if DbNames(d, r) then d.persistent == Some(j.target) else BaseSafe(d, r, j)
           case Acknowledged => r !in d.backups && d.persistent == Some(j.target)
  }

  ghost predicate JournalOk(d: Disk, r: RunId)
    requires r in d.journals
  {
    var j := d.journals[r];
    && (Swapping(d, r) ==> Owner(d, r))
    && j.permit in d.permits && d.permits[j.permit].run == r && Covers(d.permits[j.permit].grant, j)
    && (j.state in {Promoting, PendingDb, Acknowledged} ==>
          d.permits[j.permit].state == Consumed && Confirmed(d.confirmed, r, j))
    && (j.state in {PendingDb, Acknowledged} ==> r in d.swapped)
    && (Owner(d, r) && j.state in {Preparing, Promoting, PendingDb} ==> TargetRecorded(d, r, j))
  }

  ghost predicate OrphanOk(d: Disk, r: RunId)
    requires r in d.orphans
  {
    var j := d.orphans[r].journal;
    && r !in d.journals && r !in d.backups && !Owner(d, r) && !DbNames(d, r)
    && j.kind == Rollback && j.state == PendingDb && d.orphans[r].backup == j.base
    && PermitConsumed(d, j) && d.permits[j.permit].run == r && Covers(d.permits[j.permit].grant, j)
    && (r in d.receipts ==> d.receipts[r].phase != PendingPromotion)
  }

  ghost predicate JournalsOk(d: Disk) {
    && (forall r <- d.journals :: JournalOk(d, r))
    && (forall r <- d.swapped :: r in d.orphans || (r in d.journals && PermitConsumed(d, d.journals[r])))
    && d.backups.Keys <= d.swapped
  }

  ghost predicate OrphansOk(d: Disk) { (forall r <- d.orphans :: OrphanOk(d, r)) && d.orphans.Keys <= d.swapped }

  /** The version index head is the database head, or the version staged by the run under the lock. */
  ghost predicate HeadOk(d: Disk)
    requires d.head.Some? && d.head.value in d.versions && d.db.Some?
  {
    || d.head.value == d.db.value.version
    || (&& d.lock.Some? && d.lock.value.run in d.journals
        && d.journals[d.lock.value.run].state in {PendingDb, RolledBack}
        && !DbNames(d, d.lock.value.run)
        && StagedVersion(d, d.lock.value.run, d.versions[d.head.value]))
  }

  /** The run named by the database head is acknowledged, or past its commit point with its version recorded. */
  ghost predicate DbOk(d: Disk)
    requires d.db.Some? && d.db.value.version in d.versions
  {
    var db, v := d.db.value, d.versions[d.db.value.version];
    && v.run == db.run && v.kind == db.kind
    && (db.run.Some? ==>
          db.run.value in d.journals &&
          var j := d.journals[db.run.value];
          && j.state in {PendingDb, Acknowledged}
          && db.live == j.target && db.kind == Expected(j.kind)
          && (j.state == PendingDb ==>
                v.snapshot == j.target.versioned && (j.kind == Rollback ==> v.rollbackTarget == j.targetVersion)))
  }

  ghost predicate VersionOk(d: Disk, id: VersionId)
    requires id in d.versions
  {
    d.versions[id].run.Some? ==>
      var r := d.versions[id].run.value;
      && r in d.journals && d.journals[r].state in {PendingDb, Acknowledged, RolledBack}
      && (d.head != Some(id) ==> d.journals[r].state == Acknowledged)
  }

  ghost predicate VersionsOk(d: Disk) {
    && d.head.Some? && d.head.value in d.versions
    && d.db.Some? && d.db.value.version in d.versions
    && HeadOk(d) && DbOk(d)
    && (d.lock.Some? && InState(d, d.lock.value.run, Acknowledged) ==> DbNames(d, d.lock.value.run))
    && (forall id <- d.versions :: VersionOk(d, id))
  }

  ghost predicate ReceiptOk(d: Disk, r: RunId)
    requires r in d.receipts
  {
    var rc := d.receipts[r];
    match rc.phase
    case PendingPromotion =>
      && rc.decision == Committed
      && (if r in d.journals then
            d.journals[r].kind == Promotion && rc.base == d.journals[r].base && rc.final == d.journals[r].target &&
            (Owner(d, r) || d.journals[r].state in {Preparing, RolledBack})
          else Owner(d, r) ==> rc.base == d.lock.value.tree)
    case PendingDisposition =>
      rc.decision != Committed && (r in d.journals ==> d.journals[r].state in {Preparing, RolledBack})
    case Terminal =>
      if rc.decision == Committed then InState(d, r, Acknowledged) && rc.final == d.journals[r].target
      else r in d.journals ==> d.journals[r].state in {Preparing, RolledBack}
  }

  ghost predicate EventOk(d: Disk, e: Event) {
    if e.kind == RecoveryAcknowledged then InState(d, e.run, Acknowledged)
    else if e.run in d.journals then InState(d, e.run, RolledBack)
    else e.run in d.receipts
  }

  ghost predicate AuditOk(d: Disk) {
    && (forall r <- d.receipts :: ReceiptOk(d, r))
    && (forall e <- d.events :: EventOk(d, e))
    && (forall i, k :: 0 <= i < k < |d.events| ==> !SameEvent(d.events[i], d.events[k]))
  }

  ghost predicate Inv(d: Disk) { TreesOk(d) && JournalsOk(d) && OrphansOk(d) && VersionsOk(d) && AuditOk(d) }

  // --------------------------------------------------- every step keeps it

  lemma TreesSame(d: Disk, e: Disk)
    requires TreesOk(d)
    requires e.lock == d.lock && e.persistent == d.persistent && e.backups == d.backups
    requires e.journals == d.journals && e.db == d.db
    ensures TreesOk(e)
  {
  }

  lemma TreesJournal(op: Op, d: Disk)
    requires TreesOk(d) && JournalsOk(d) && VersionsOk(d) && Allowed(op, d)
    requires op.PutJournal?
    ensures TreesOk(Apply(op, d))
  {
  }

  lemma TreesSwap(op: Op, d: Disk)
    requires TreesOk(d) && VersionsOk(d) && Allowed(op, d)
    requires op.PersistentToBackup? || op.StagingToPersistent?
    ensures TreesOk(Apply(op, d))
  {
  }

  lemma TreesRestore(op: Op, d: Disk)
    requires TreesOk(d) && Allowed(op, d)
    requires op.PersistentToFailed? || op.BackupToPersistent?
    ensures TreesOk(Apply(op, d))
  {
  }

  lemma TreesBackup(op: Op, d: Disk)
    requires TreesOk(d) && JournalsOk(d) && Allowed(op, d)
    requires op.TearBackup? || op.RemoveBackup?
    ensures TreesOk(Apply(op, d))
  {
  }

  lemma TreesAgent(op: Op, d: Disk)
    requires TreesOk(d) && VersionsOk(d) && Allowed(op, d)
    requires op.Admit? || op.Release? || op.ReleaseUnfinished? || op.Regenerate? || op.CommitDatabase?
    ensures TreesOk(Apply(op, d))
  {
  }

  /* Which effects write which records. */

  lemma WritesPermits(op: Op, d: Disk)
    ensures op.PutPermit? || Apply(op, d).permits == d.permits
  {
    hide HeadIsRun;
  }

  lemma WritesReceipts(op: Op, d: Disk)
    ensures op.PutReceipt? || Apply(op, d).receipts == d.receipts
  {
    hide HeadIsRun;
  }

  lemma WritesEvents(op: Op, d: Disk)
    ensures op.AppendEvent? || Apply(op, d).events == d.events
  {
    hide HeadIsRun;
  }

  lemma WritesVersions(op: Op, d: Disk)
    ensures op.RecordVersion? || op.RevertVersion? || Apply(op, d).versions == d.versions
  {
    hide HeadIsRun;
  }

  lemma WritesHead(op: Op, d: Disk)
    ensures op.RecordVersion? || op.RevertVersion? || Apply(op, d).head == d.head
  {
    hide HeadIsRun;
  }

  lemma WritesDatabase(op: Op, d: Disk)
    ensures op.CommitDatabase? || Apply(op, d).db == d.db
  {
    hide HeadIsRun;
  }

  lemma WritesJournals(op: Op, d: Disk)
    ensures op.PutJournal? || op.ReleaseUnfinished? || Apply(op, d).journals == d.journals
  {
    hide HeadIsRun;
  }

  lemma WritesOrphans(op: Op, d: Disk)
    ensures op.ReleaseUnfinished? || Apply(op, d).orphans == d.orphans
  {
    hide HeadIsRun;
  }

  lemma WritesLock(op: Op, d: Disk)
    ensures op.Admit? || op.Release? || op.ReleaseUnfinished? || Apply(op, d).lock == d.lock
  {
    hide HeadIsRun;
  }

  lemma WritesSwapped(op: Op, d: Disk)
    ensures op.PersistentToBackup? || Apply(op, d).swapped == d.swapped
  {
    hide HeadIsRun;
  }

  lemma WritesConfirmed(op: Op, d: Disk)
    ensures op.ConfirmView? || Apply(op, d).confirmed == d.confirmed
  {
    hide HeadIsRun;
  }

  lemma WritesBackups(op: Op, d: Disk)
    ensures op.PersistentToBackup? || Apply(op, d).backups.Keys <= d.backups.Keys
  {
    hide HeadIsRun;
  }

  lemma Writes(op: Op, d: Disk)
    ensures var e := Apply(op, d);
            && (op.PutPermit? || e.permits == d.permits)
            && (op.PutReceipt? || e.receipts == d.receipts)
            && (op.AppendEvent? || e.events == d.events)
            && (op.RecordVersion? || op.RevertVersion? || (e.versions == d.versions && e.head == d.head))
            && (op.CommitDatabase? || e.db == d.db)
            && (op.PutJournal? || op.ReleaseUnfinished? || e.journals == d.journals)
            && (op.ReleaseUnfinished? || e.orphans == d.orphans)
            && (op.Admit? || op.Release? || op.ReleaseUnfinished? || e.lock == d.lock)
            && (op.PersistentToBackup? || (e.swapped == d.swapped && e.backups.Keys <= d.backups.Keys))
            && (op.ConfirmView? || e.confirmed == d.confirmed)
  {
    hide Apply;
    WritesPermits(op, d);
    WritesReceipts(op, d);
    WritesEvents(op, d);
    WritesVersions(op, d);
    WritesHead(op, d);
    WritesDatabase(op, d);
    WritesJournals(op, d);
    WritesOrphans(op, d);
    WritesLock(op, d);
    WritesSwapped(op, d);
    WritesConfirmed(op, d);
    WritesBackups(op, d);
  }

  /** The effects that leave every tree in its place. */
  predicate Inert(op: Op) {
    || op.PutPermit? || op.PutReceipt? || op.PutStaging? || op.RemoveStaging? || op.ConfirmView? || op.RecordVersion? || op.RevertVersion?
    || op.AppendEvent?
  }

  lemma InertTrees(op: Op, d: Disk)
    requires Inert(op)
    ensures Apply(op, d).persistent == d.persistent && Apply(op, d).backups == d.backups
  {
    hide HeadIsRun;
  }

  lemma TreesStep(op: Op, d: Disk)
    requires TreesOk(d) && JournalsOk(d) && VersionsOk(d) && AuditOk(d) && Allowed(op, d)
    ensures TreesOk(Apply(op, d))
  {
    hide TreesOk, JournalsOk, VersionsOk, AuditOk, Allowed, Apply;
    Writes(op, d);
    if op.PutJournal? {
      TreesJournal(op, d);
    } else if op.PersistentToBackup? || op.StagingToPersistent? {
      TreesSwap(op, d);
    } else if op.PersistentToFailed? || op.BackupToPersistent? {
      TreesRestore(op, d);
    } else if op.TearBackup? || op.RemoveBackup? {
      TreesBackup(op, d);
    } else if op.Admit? || op.Release? || op.ReleaseUnfinished? || op.Regenerate? || op.CommitDatabase? {
      TreesAgent(op, d);
    } else {
      InertTrees(op, d);
      TreesSame(d, Apply(op, d));
    }
  }

  lemma JournalsSame(d: Disk, e: Disk)
    requires JournalsOk(d)
    requires e.lock == d.lock && e.journals == d.journals && e.permits == d.permits && e.versions == d.versions
    requires e.swapped == d.swapped && e.backups.Keys <= d.backups.Keys && e.orphans == d.orphans
    requires e.confirmed == d.confirmed
    ensures JournalsOk(e)
  {
    forall r <- e.journals ensures JournalOk(e, r) { assert JournalOk(d, r); }
  }

  lemma JournalWritten(d: Disk, r: RunId, k: Journal)
    requires JournalsOk(d) && JournalStep(d, r, k)
    ensures JournalOk(Apply(PutJournal(r, k), d), r)
    ensures r in d.journals ==> k.permit == d.journals[r].permit
  {
    if r in d.journals { assert JournalOk(d, r); }
  }

  lemma JournalsJournal(op: Op, d: Disk)
    requires JournalsOk(d) && Allowed(op, d)
    requires op.PutJournal?
    ensures JournalsOk(Apply(op, d))
  {
    hide Covers, JournalStep;
    var e := Apply(op, d);
    JournalWritten(d, op.run, op.journal);
    forall r <- e.journals ensures JournalOk(e, r) { if r in d.journals { assert JournalOk(d, r); } }
  }

  lemma JournalsPermit(op: Op, d: Disk)
    requires JournalsOk(d) && Allowed(op, d)
    requires op.PutPermit?
    ensures JournalsOk(Apply(op, d))
  {
    var e := Apply(op, d);
    forall r <- e.journals ensures JournalOk(e, r) { if r in d.journals { assert JournalOk(d, r); } }
  }

  lemma JournalsAdmit(op: Op, d: Disk)
    requires JournalsOk(d) && Allowed(op, d)
    requires op.Admit?
    ensures JournalsOk(Apply(op, d))
  {
    hide Covers, Confirmed;
    var e := Apply(op, d);
    assert e == d.(lock := e.lock);
    hide Apply, Allowed;
    forall r <- e.journals ensures JournalOk(e, r) {
      assert JournalOk(d, r) && !Swapping(d, r);
    }
  }

  lemma JournalsRelease(op: Op, d: Disk)
    requires JournalsOk(d) && Allowed(op, d)
    requires op.Release?
    ensures JournalsOk(Apply(op, d))
  {
    hide Covers, Confirmed;
    var e := Apply(op, d);
    forall r <- e.journals ensures JournalOk(e, r) { if r in d.journals { assert JournalOk(d, r); } }
  }

  lemma JournalsUnfinished(op: Op, d: Disk)
    requires JournalsOk(d) && Allowed(op, d)
    requires op.ReleaseUnfinished?
    ensures JournalsOk(Apply(op, d))
  {
    hide Covers, Confirmed;
    var e := Apply(op, d);
    forall r <- e.journals ensures JournalOk(e, r) { if r in d.journals { assert JournalOk(d, r); } }
  }

  lemma JournalsSwap(op: Op, d: Disk)
    requires JournalsOk(d) && Allowed(op, d)
    requires op.PersistentToBackup?
    ensures JournalsOk(Apply(op, d))
  {
    var e := Apply(op, d);
    forall r <- e.journals ensures JournalOk(e, r) { if r in d.journals { assert JournalOk(d, r); } }
  }

  lemma JournalsConfirm(op: Op, d: Disk)
    requires JournalsOk(d) && Allowed(op, d)
    requires op.ConfirmView?
    ensures JournalsOk(Apply(op, d))
  {
    hide Covers;
    var e := Apply(op, d);
    forall r <- e.journals ensures JournalOk(e, r) { if r in d.journals { assert JournalOk(d, r); } }
  }

  lemma JournalsRecord(op: Op, d: Disk)
    requires JournalsOk(d) && VersionsOk(d) && Allowed(op, d)
    requires op.RecordVersion?
    ensures JournalsOk(Apply(op, d))
  {
    hide Covers, Confirmed;
    var e := Apply(op, d);
    forall r <- e.journals ensures JournalOk(e, r) { if r in d.journals { assert JournalOk(d, r); } }
  }

  lemma JournalsRevert(op: Op, d: Disk)
    requires JournalsOk(d) && VersionsOk(d) && Allowed(op, d)
    requires op.RevertVersion?
    ensures JournalsOk(Apply(op, d))
  {
    hide Covers, Confirmed;
    var e := Apply(op, d);
    forall r <- e.journals ensures JournalOk(e, r) { if r in d.journals { assert JournalOk(d, r); } }
  }

  lemma JournalsStep(op: Op, d: Disk)
    requires TreesOk(d) && JournalsOk(d) && VersionsOk(d) && AuditOk(d) && Allowed(op, d)
    ensures JournalsOk(Apply(op, d))
  {
    hide TreesOk, JournalsOk, VersionsOk, AuditOk, Allowed, Apply;
    Writes(op, d);
    if op.PutJournal? {
      JournalsJournal(op, d);
    } else if op.PutPermit? {
      JournalsPermit(op, d);
    } else if op.Admit? {
      JournalsAdmit(op, d);
    } else if op.Release? {
      JournalsRelease(op, d);
    } else if op.ReleaseUnfinished? {
      JournalsUnfinished(op, d);
    } else if op.PersistentToBackup? {
      JournalsSwap(op, d);
    } else if op.ConfirmView? {
      JournalsConfirm(op, d);
    } else if op.RecordVersion? {
      JournalsRecord(op, d);
    } else if op.RevertVersion? {
      JournalsRevert(op, d);
    } else {
      JournalsSame(d, Apply(op, d));
    }
  }

  lemma OrphansSame(d: Disk, e: Disk)
    requires OrphansOk(d)
    requires e.lock == d.lock && e.journals.Keys == d.journals.Keys && e.permits == d.permits && e.db == d.db
    requires e.orphans == d.orphans && e.swapped == d.swapped && e.backups.Keys <= d.backups.Keys
    requires e.receipts == d.receipts
    ensures OrphansOk(e)
  {
    forall r <- e.orphans ensures OrphanOk(e, r) { assert OrphanOk(d, r); }
  }

  lemma OrphansJournal(op: Op, d: Disk)
    requires OrphansOk(d) && Allowed(op, d)
    requires op.PutJournal?
    ensures OrphansOk(Apply(op, d))
  {
    hide Covers, TargetRecorded;
    var e := Apply(op, d);
    forall r <- e.orphans ensures OrphanOk(e, r) { assert OrphanOk(d, r); }
  }

  lemma OrphansPermit(op: Op, d: Disk)
    requires OrphansOk(d) && Allowed(op, d)
    requires op.PutPermit?
    ensures OrphansOk(Apply(op, d))
  {
    var e := Apply(op, d);
    forall r <- e.orphans ensures OrphanOk(e, r) { assert OrphanOk(d, r); }
  }

  lemma OrphansLock(op: Op, d: Disk)
    requires OrphansOk(d) && Allowed(op, d)
    requires op.Admit? || op.Release? || op.PersistentToBackup? || op.CommitDatabase?
    ensures OrphansOk(Apply(op, d))
  {
    var e := Apply(op, d);
    forall r <- e.orphans ensures OrphanOk(e, r) { assert OrphanOk(d, r); }
  }

  lemma OrphansReceipt(op: Op, d: Disk)
    requires OrphansOk(d) && Allowed(op, d)
    requires op.PutReceipt?
    ensures OrphansOk(Apply(op, d))
  {
    hide Covers;
    var e := Apply(op, d);
    forall r <- e.orphans ensures OrphanOk(e, r) { assert OrphanOk(d, r); }
  }

  lemma UnfinishedUnreceipted(op: Op, d: Disk)
    requires AuditOk(d) && Allowed(op, d)
    requires op.ReleaseUnfinished?
    ensures op.run !in d.receipts
  {
    assert op.run in d.receipts ==> ReceiptOk(d, op.run);
  }

  lemma OrphansUnfinished(op: Op, d: Disk)
    requires JournalsOk(d) && OrphansOk(d) && TreesOk(d) && AuditOk(d) && Allowed(op, d)
    requires op.ReleaseUnfinished?
    ensures OrphansOk(Apply(op, d))
  {
    var e := Apply(op, d);
    UnfinishedIsOrphan(op, d);
    hide AuditOk, TreesOk, JournalsOk, Covers;
    forall r <- e.orphans ensures OrphanOk(e, r) { if r != op.run { assert OrphanOk(d, r); } }
  }

  lemma UnfinishedIsOrphan(op: Op, d: Disk)
    requires JournalsOk(d) && TreesOk(d) && AuditOk(d) && Allowed(op, d)
    requires op.ReleaseUnfinished?
    ensures op.run in Apply(op, d).orphans && OrphanOk(Apply(op, d), op.run) && op.run in d.swapped
  {
    UnfinishedUnreceipted(op, d);
    assert JournalOk(d, op.run);
    hide AuditOk, Covers;
  }

  lemma OrphansStep(op: Op, d: Disk)
    requires TreesOk(d) && JournalsOk(d) && OrphansOk(d) && AuditOk(d) && Allowed(op, d)
    ensures OrphansOk(Apply(op, d))
  {
    hide TreesOk, JournalsOk, OrphansOk, AuditOk, Allowed, Apply;
    Writes(op, d);
    if op.PutJournal? {
      OrphansJournal(op, d);
    } else if op.PutPermit? {
      OrphansPermit(op, d);
    } else if op.PutReceipt? {
      OrphansReceipt(op, d);
    } else if op.Admit? || op.Release? || op.PersistentToBackup? || op.CommitDatabase? {
      OrphansLock(op, d);
    } else if op.ReleaseUnfinished? {
      OrphansUnfinished(op, d);
    } else {
      OrphansSame(d, Apply(op, d));
    }
  }

  lemma VersionsSame(d: Disk, e: Disk)
    requires VersionsOk(d)
    requires e.lock == d.lock && e.journals == d.journals && e.versions == d.versions
    requires e.head == d.head && e.db == d.db
    ensures VersionsOk(e)
  {
    forall id <- e.versions ensures VersionOk(e, id) { assert VersionOk(d, id); }
  }

  lemma VersionsJournal(op: Op, d: Disk)
    requires JournalsOk(d) && VersionsOk(d) && Allowed(op, d)
    requires op.PutJournal?
    ensures VersionsOk(Apply(op, d))
  {
    hide Covers, TargetRecorded, PermitConsumed;
    var e := Apply(op, d);
    forall id <- e.versions ensures VersionOk(e, id) { if id in d.versions { assert VersionOk(d, id); } }
  }

  lemma VersionsLock(op: Op, d: Disk)
    requires VersionsOk(d) && Allowed(op, d)
    requires op.Admit? || op.Release? || op.ReleaseUnfinished?
    ensures VersionsOk(Apply(op, d))
  {
    var e := Apply(op, d);
    forall id <- e.versions ensures VersionOk(e, id) { if id in d.versions { assert VersionOk(d, id); } }
  }

  lemma VersionsRecord(op: Op, d: Disk)
    requires JournalsOk(d) && VersionsOk(d) && Allowed(op, d)
    requires op.RecordVersion?
    ensures VersionsOk(Apply(op, d))
  {
    var e := Apply(op, d);
    forall id <- e.versions ensures VersionOk(e, id) { if id in d.versions { assert VersionOk(d, id); } }
  }

  lemma VersionsRevert(op: Op, d: Disk)
    requires VersionsOk(d) && Allowed(op, d)
    requires op.RevertVersion?
    ensures VersionsOk(Apply(op, d))
  {
    var e := Apply(op, d);
    forall id <- e.versions ensures VersionOk(e, id) { if id in d.versions { assert VersionOk(d, id); } }
  }

  lemma VersionsCommit(op: Op, d: Disk)
    requires VersionsOk(d) && Allowed(op, d)
    requires op.CommitDatabase?
    ensures VersionsOk(Apply(op, d))
  {
    var e := Apply(op, d);
    forall id <- e.versions ensures VersionOk(e, id) { if id in d.versions { assert VersionOk(d, id); } }
  }

  lemma VersionsStep(op: Op, d: Disk)
    requires TreesOk(d) && JournalsOk(d) && VersionsOk(d) && AuditOk(d) && Allowed(op, d)
    ensures VersionsOk(Apply(op, d))
  {
    hide TreesOk, JournalsOk, VersionsOk, AuditOk, Allowed, Apply;
    Writes(op, d);
    if op.PutJournal? {
      VersionsJournal(op, d);
    } else if op.Admit? || op.Release? || op.ReleaseUnfinished? {
      VersionsLock(op, d);
    } else if op.RecordVersion? {
      VersionsRecord(op, d);
    } else if op.RevertVersion? {
      VersionsRevert(op, d);
    } else if op.CommitDatabase? {
      VersionsCommit(op, d);
    } else {
      VersionsSame(d, Apply(op, d));
    }
  }

  lemma AuditSame(d: Disk, e: Disk)
    requires AuditOk(d)
    requires e.lock == d.lock && e.journals == d.journals && e.receipts == d.receipts && e.events == d.events
    ensures AuditOk(e)
  {
    forall r <- e.receipts ensures ReceiptOk(e, r) { assert ReceiptOk(d, r); }
    forall f <- e.events ensures EventOk(e, f) { assert EventOk(d, f); }
  }

  lemma AuditNewJournal(d: Disk, r: RunId, k: Journal)
    requires TreesOk(d) && AuditOk(d) && JournalStep(d, r, k) && r !in d.journals
    ensures AuditOk(Apply(PutJournal(r, k), d))
  {
    var e := Apply(PutJournal(r, k), d);
    forall s <- e.receipts ensures ReceiptOk(e, s) { assert ReceiptOk(d, s); }
    forall f <- e.events ensures EventOk(e, f) { assert EventOk(d, f); }
  }

  lemma AuditJournal(op: Op, d: Disk)
    requires TreesOk(d) && JournalsOk(d) && AuditOk(d) && Allowed(op, d)
    requires op.PutJournal?
    ensures AuditOk(Apply(op, d))
  {
    hide TreesOk, Covers, TargetRecorded;
    if op.run in d.journals {
      var e := Apply(op, d);
      assert JournalOk(d, op.run);
      forall r <- e.receipts ensures ReceiptOk(e, r) { assert ReceiptOk(d, r); }
      forall f <- e.events ensures EventOk(e, f) { assert EventOk(d, f); }
    } else {
      AuditNewJournal(d, op.run, op.journal);
    }
  }

  lemma AuditLock(op: Op, d: Disk)
    requires TreesOk(d) && AuditOk(d) && Allowed(op, d)
    requires op.Admit? || op.Release? || op.ReleaseUnfinished?
    ensures AuditOk(Apply(op, d))
  {
    var e := Apply(op, d);
    forall r <- e.receipts ensures ReceiptOk(e, r) { if r in d.receipts { assert ReceiptOk(d, r); } }
    forall f <- e.events ensures EventOk(e, f) { assert EventOk(d, f); }
  }

  lemma AuditReceipt(op: Op, d: Disk)
    requires AuditOk(d) && Allowed(op, d)
    requires op.PutReceipt?
    ensures AuditOk(Apply(op, d))
  {
    var e := Apply(op, d);
    forall r <- e.receipts ensures ReceiptOk(e, r) { if r in d.receipts { assert ReceiptOk(d, r); } }
    forall f <- e.events ensures EventOk(e, f) { assert EventOk(d, f); }
  }

  lemma AuditAppend(op: Op, d: Disk)
    requires AuditOk(d) && Allowed(op, d)
    requires op.AppendEvent?
    ensures AuditOk(Apply(op, d))
  {
    var e := Apply(op, d);
    forall r <- e.receipts ensures ReceiptOk(e, r) { assert ReceiptOk(d, r); }
    forall f <- e.events ensures EventOk(e, f) { if f in d.events { assert EventOk(d, f); } }
    forall i, k | 0 <= i < k < |e.events| ensures !SameEvent(e.events[i], e.events[k]) {
      if k == |d.events| {
        assert d.events[i] in d.events;
      }
    }
  }

  lemma AuditStep(op: Op, d: Disk)
    requires TreesOk(d) && JournalsOk(d) && VersionsOk(d) && AuditOk(d) && Allowed(op, d)
    ensures AuditOk(Apply(op, d))
  {
    hide TreesOk, JournalsOk, VersionsOk, AuditOk, Allowed, Apply;
    Writes(op, d);
    if op.PutJournal? {
      AuditJournal(op, d);
    } else if op.Admit? || op.Release? || op.ReleaseUnfinished? {
      AuditLock(op, d);
    } else if op.PutReceipt? {
      AuditReceipt(op, d);
    } else if op.AppendEvent? {
      AuditAppend(op, d);
    } else {
      AuditSame(d, Apply(op, d));
    }
  }

  /** The invariant holds after every effect the code may apply. */
  lemma StepKeepsInv(op: Op, d: Disk)
    requires Inv(d) && Allowed(op, d)
    ensures Inv(Apply(op, d))
  {
    hide TreesOk, JournalsOk, OrphansOk, VersionsOk, AuditOk, Apply, Allowed;
    TreesStep(op, d);
    JournalsStep(op, d);
    OrphansStep(op, d);
    VersionsStep(op, d);
    AuditStep(op, d);
  }
}
