/**
 The coordinator's side of a transaction: permit, receipt, promotion, and what it
 does when any of them fails.
 */
module Coordinator {
  import opened Wrappers
  import opened Protocol
  import opened Runs
  import opened HostState
  import opened Transaction
  import opened RecoveryPlan

  /** What the verification of a sealed proposal established. */
  datatype Evidence = Evidence(verified: Tree, complete: bool, passed: bool)

  datatype Finalization = CommittedRun | RejectedRun(decision: Decision) | NeedsRecovery | Unreported

  /** How the promoting block ended. */
  datatype Attempt = Done | Threw(conflict: bool, promoted: bool) | Stuck

  /** Only the records of run `r` and permit `p` differ. */
  ghost predicate Confined(d: Disk, e: Disk, r: RunId, p: PermitId) {
    && e == d.(persistent := e.persistent, staging := e.staging, backups := e.backups, failed := e.failed,
               journals := e.journals, permits := e.permits, receipts := e.receipts, swapped := e.swapped,
               confirmed := e.confirmed)
    && (forall s | s != r :: (s in e.journals <==> s in d.journals) && (s in e.receipts <==> s in d.receipts))
    && (forall s <- d.journals :: s != r ==> e.journals[s] == d.journals[s])
    && (forall s <- d.receipts :: s != r ==> e.receipts[s] == d.receipts[s])
    && (forall q | q != p :: q in e.permits <==> q in d.permits)
    && (forall q <- d.permits :: q != p ==> e.permits[q] == d.permits[q])
  }

  lemma ConfinedTrans(d: Disk, e: Disk, f: Disk, r: RunId, p: PermitId)
    requires Confined(d, e, r, p) && Confined(e, f, r, p)
    ensures Confined(d, f, r, p)
  {
  }

  lemma ConfinedFacts(d: Disk, e: Disk, r: RunId, id: PermitId)
    requires Confined(d, e, r, id)
    ensures e.lock == d.lock && e.db == d.db && e.head == d.head && e.versions == d.versions && e.events == d.events
    ensures e.orphans == d.orphans
  {
  }

  // ----------------------------------------------------------- undoing a swap

  /** The two renames that put an existing backup back at the live path. */
  method PutBack(h: Host, r: RunId) returns (ok: bool)
    requires h.Valid() && r in h.disk.journals && !DbNames(h.disk, r)
    requires r in h.disk.backups ==> Owner(h.disk, r) && Swapping(h.disk, r)
    modifies h
    ensures h.Valid() && Fate(h.disk) == old(Fate(h.disk)) && Remembered(ok, h.faulted, old(h.faulted))
    ensures h.disk == old(h.disk).(persistent := h.disk.persistent, backups := h.disk.backups, failed := h.disk.failed)
    ensures ok ==> r !in h.disk.backups
    ensures ok ==> h.disk == if r in old(h.disk).backups then MoveBackup(old(h.disk), r) else old(h.disk)
  {
    if r in h.disk.backups { MoveOnly(h.disk, r); }
    hide Host.Valid, Fate, MoveBackup;
    ok := true;
    if r in h.disk.backups {
      if h.disk.persistent.Some? {
        ok := h.RenameToFailed(r);
        if !ok { return; }
      }
      ok := h.RenameBackup(r);
    }
  }

  /** Checks the restored tree, discards staging, and marks the journal rolled back. */
  method CloseRestored(h: Host, r: RunId) returns (ok: bool)
    requires h.Valid() && r in h.disk.journals && !DbNames(h.disk, r) && r !in h.disk.backups
    requires h.disk.journals[r].state !in {Acknowledged, RolledBack}
    modifies h
    ensures h.Valid() && Fate(h.disk) == old(Fate(h.disk)) && (old(h.faulted) ==> h.faulted)
    ensures ok ==>
              && old(h.disk).persistent == Some(old(h.disk).journals[r].base)
              && h.disk == old(h.disk).(staging := old(h.disk).staging - {r},
                             journals := old(h.disk).journals[r := old(h.disk).journals[r].(state := RolledBack)])
    ensures !ok ==> h.disk == old(h.disk).(staging := h.disk.staging)
    ensures ok ==> h.faulted == old(h.faulted)
    ensures !ok && !h.faulted ==> h.disk == old(h.disk) && h.disk.persistent != Some(h.disk.journals[r].base)
  {
    hide Host.Valid, Fate, JournalStep, Inv;
    var restored := h.ReadLive();
    if restored != Some(h.disk.journals[r].base) { return false; }
    ok := h.DeleteStaging(r);
    if !ok { return; }
    MayClose(h.disk, r);
    ok := h.WriteJournal(r, h.disk.journals[r].(state := RolledBack));
  }

  /** Restores the base from the backup and closes the journal; the code throws
      where this returns false. */
  method RollbackJournal(h: Host, r: RunId) returns (ok: bool)
    requires h.Valid() && r in h.disk.journals && !DbNames(h.disk, r)
    modifies h
    ensures h.Valid() && Fate(h.disk) == old(Fate(h.disk)) && (old(h.faulted) ==> h.faulted)
    ensures h.disk == old(h.disk).(persistent := h.disk.persistent, staging := h.disk.staging, backups := h.disk.backups,
                                   failed := h.disk.failed, journals := h.disk.journals)
    ensures h.disk.journals ==
            if ok then old(h.disk).journals[r := old(h.disk).journals[r].(state := RolledBack)] else old(h.disk).journals
    ensures ok && old(h.disk).journals[r].state != RolledBack ==>
              h.disk.persistent == Some(h.disk.journals[r].base) && r !in h.disk.backups && r !in h.disk.staging
    ensures old(h.disk).journals[r].state == RolledBack ==> ok && h.disk == old(h.disk)
    ensures ok ==> h.faulted == old(h.faulted)
    ensures (ok || !h.faulted) && Swapping(old(h.disk), r) ==> (h.disk, ok) == RestoreBackup(old(h.disk), r)
  {
    hide Host.Valid, Fate, RestoreBackup, Inv;
    var j := h.disk.journals[r];
    if j.state == RolledBack {
      assert h.disk.journals[r := j] == h.disk.journals;
      ok := true;
    } else if j.state == Acknowledged {
      ok := false;
    } else {
      ok := RollbackOpen(h, r);
    }
  }

  method RollbackOpen(h: Host, r: RunId) returns (ok: bool)
    requires h.Valid() && r in h.disk.journals && !DbNames(h.disk, r)
    requires h.disk.journals[r].state !in {Acknowledged, RolledBack}
    modifies h
    ensures h.Valid() && Fate(h.disk) == old(Fate(h.disk)) && (old(h.faulted) ==> h.faulted)
    ensures h.disk == old(h.disk).(persistent := h.disk.persistent, staging := h.disk.staging, backups := h.disk.backups,
                                   failed := h.disk.failed, journals := h.disk.journals)
    ensures h.disk.journals ==
            if ok then old(h.disk).journals[r := old(h.disk).journals[r].(state := RolledBack)] else old(h.disk).journals
    ensures ok ==>
              h.disk.persistent == Some(h.disk.journals[r].base) && r !in h.disk.backups && r !in h.disk.staging
    ensures ok ==> h.faulted == old(h.faulted)
    ensures ok || !h.faulted ==> (h.disk, ok) == RestoreBackup(old(h.disk), r)
  {
    hide Host.Valid, Fate, JournalStep, RestoreBackup, Inv, MoveBackup;
    HostInv(h);
    if r in h.disk.backups { BackupIsSwapping(h.disk, r); }
    RestoreBackupResult(h.disk, r);
    ok := PutBack(h, r);
    if ok {
      ok := CloseRestored(h, r);
    }
  }

  lemma MayClose(d: Disk, r: RunId)
    requires r in d.journals && d.journals[r].state !in {Acknowledged, RolledBack}
    requires r !in d.backups && d.persistent == Some(d.journals[r].base) && !DbNames(d, r)
    ensures JournalStep(d, r, d.journals[r].(state := RolledBack))
  {
  }

  lemma BackupIsSwapping(d: Disk, r: RunId)
    requires Inv(d) && r in d.backups && r in d.journals && !DbNames(d, r)
    ensures Owner(d, r) && Swapping(d, r)
  {
    hide AuditOk, VersionsOk;
  }

  // -------------------------------------------------------------- the promotion

  /** What a claim hands out: the permit as read, with the view and proposal presented to it. */
  datatype Capability = Capability(id: PermitId, permit: Permit, base: Tree, proposal: Tree)

  /** What `issue` insists on before it stores a permit. */
  predicate Issuable(g: Grant) { g.ProposalGrant? && g.complete && g.passed && g.verified == g.proposal }

  predicate Bound(cap: Capability, r: RunId) {
    && cap.permit.state == Consuming && cap.permit.run == r && cap.permit.grant.ProposalGrant?
    && cap.permit.grant.base == cap.base && cap.permit.grant.proposal == cap.proposal
  }

  function ProposalPlan(cap: Capability): Plan {
    Plan(Promotion, cap.base, cap.id, None, Some(cap.proposal), None,
         if cap.permit.grant.ProposalGrant? then Some(cap.permit.grant.binding) else None)
  }

  function OpenReceipt(base: Tree, final: Tree, epoch: nat): Receipt {
    Receipt(PendingPromotion, Committed, base, final, None, true, epoch)
  }

  lemma ProposalJournal(d: Disk, r: RunId, cap: Capability, staged: Tree)
    requires Inv(d) && Owner(d, r) && r !in d.journals && Bound(cap, r) && Issuable(cap.permit.grant)
    requires cap.id in d.permits && d.permits[cap.id].(state := Consuming) == cap.permit
    requires r in d.receipts && d.receipts[r].phase == PendingPromotion
    requires d.receipts[r].base == cap.base && d.receipts[r].final == cap.proposal
    requires (forall e <- d.events :: e.run != r) && Meets(ProposalPlan(cap), staged)
    ensures JournalStep(d, r, JournalOf(ProposalPlan(cap), staged))
  {
  }

  /** The binding check, the expiry check, the payload check, then the transaction. */
  method PromoteAuthorized(h: Host, r: RunId, cap: Capability, expired: bool, intact: bool,
                           assembled: Option<Tree>, partial: Tree, latest: Option<ViewBinding>) returns (out: Outcome)
    requires h.Valid() && Owner(h.disk, r) && r !in h.disk.journals && Issuable(cap.permit.grant)
    requires cap.id in h.disk.permits && h.disk.permits[cap.id].(state := Consuming) == cap.permit.(state := Consuming)
    requires r in h.disk.receipts && h.disk.receipts[r].phase == PendingPromotion
    requires h.disk.receipts[r].base == cap.base && h.disk.receipts[r].final == cap.proposal
    requires forall e <- h.disk.events :: e.run != r
    modifies h
    ensures h.Valid() && Fate(h.disk) == old(Fate(h.disk)) && Elsewhere(old(h.disk), h.disk, r, cap.id)
    ensures r in h.disk.journals ==>
              SameButState(JournalOf(ProposalPlan(cap), cap.proposal), h.disk.journals[r])
    ensures out == Promoted ==>
              && Bound(cap, r) && !expired && intact && latest == Some(cap.permit.grant.binding) && old(h.disk).persistent == Some(cap.base)
              && assembled == Some(cap.proposal)
              && InState(h.disk, r, PendingDb) && h.disk.persistent == Some(cap.proposal)
              && h.disk.permits[cap.id].state == Consumed
    ensures out == Conflict ==> old(h.disk).persistent != Some(cap.base) || Answer(ProposalPlan(cap).binding, latest) == Differs
    ensures out in {Conflict, Refused} ==> Undone(h.disk, r, old(h.disk).persistent)
    ensures out == RecoveryRequired ==> h.faulted && InState(h.disk, r, Promoting) && h.disk.permits[cap.id].state == Consumed
    ensures !h.faulted ==>
              (out == Promoted <==>
                 && Bound(cap, r) && !expired && intact && latest == Some(cap.permit.grant.binding) && assembled == Some(cap.proposal)
                 && old(h.disk).persistent == Some(cap.base) && old(h.disk).permits[cap.id].state == Consuming)
  {
    hide Host.Valid, Fate, JournalStep, Elsewhere;
    HostInv(h);
    if !Bound(cap, r) || expired || !intact {
      out := Refused;
      ElsewhereOwn(h.disk, h.disk, r, cap.id);
      Admitted(h.disk, r);
      hide Inv;
      return;
    }
    forall staged | Meets(ProposalPlan(cap), staged) ensures JournalStep(h.disk, r, JournalOf(ProposalPlan(cap), staged)) {
      ProposalJournal(h.disk, r, cap, staged);
    }
    hide Inv;
    out := Promote(h, r, ProposalPlan(cap), assembled, partial, latest);
  }

  /** What the outside world answers while a run is being promoted. */
  datatype World = World(resolves: bool, expiresEarly: bool, expires: bool, intact: bool,
                         assembled: Option<Tree>, partial: Tree, latest: Option<ViewBinding>)

  /** The View and the context are still the ones the permit is bound to. */
  predicate Willing(w: World, sealed: Tree, binding: ViewBinding) {
    w.resolves && !w.expiresEarly && !w.expires && w.intact && w.assembled == Some(sealed) && w.latest == Some(binding)
  }

  /** Another View in the same context: what makes a run conflict. */
  predicate ViewMoved(w: World, binding: ViewBinding) { Answer(Some(binding), w.latest) == Differs }

  predicate Sufficient(evidence: Evidence, sealed: Tree) {
    evidence.complete && evidence.passed && evidence.verified == sealed
  }

  function GrantFor(base: Tree, binding: ViewBinding, sealed: Tree, evidence: Evidence): Grant {
    ProposalGrant(base, binding, sealed, evidence.verified, evidence.complete, evidence.passed)
  }

  /** At most the permit `id` has been added, for `grant`. */
  ghost predicate Granted(d: Disk, e: Disk, id: PermitId, grant: Grant) {
    && e == d.(permits := e.permits)
    && (id in e.permits ==> e.permits == d.permits[id := e.permits[id]] && e.permits[id].grant == grant)
    && (id !in e.permits ==> e.permits == d.permits)
  }

  lemma PermitLife(d: Disk, id: PermitId)
    requires id in d.permits
    ensures d.permits[id].state in {Issued, Consuming} ==> PermitStep(d, id, d.permits[id].(state := Revoked))
    ensures d.permits[id].state == Issued ==> PermitStep(d, id, d.permits[id].(state := Consuming))
  {
  }

  lemma GrantedConfined(d: Disk, e: Disk, r: RunId, id: PermitId, grant: Grant)
    requires id !in d.permits && Granted(d, e, id, grant)
    ensures Confined(d, e, r, id)
    ensures e == d.(permits := e.permits)
  {
  }

  lemma ReceiptConfined(d: Disk, e: Disk, r: RunId, id: PermitId)
    requires e == d.(receipts := e.receipts)
    requires e.receipts == d.receipts || (r in e.receipts && e.receipts == d.receipts[r := e.receipts[r]])
    ensures Confined(d, e, r, id)
  {
  }

  lemma GrantedOne(d: Disk, e: Disk, id: PermitId, p: Permit)
    requires id !in d.permits && e == d.(permits := e.permits)
    requires e.permits == d.permits || e.permits == d.permits[id := p]
    ensures Granted(d, e, id, p.grant)
  {
  }

  /** The write that claims an issued permit, or revokes it when it has expired. */
  method ClaimIssued(h: Host, id: PermitId, expired: bool) returns (ok: bool, now: Permit)
    requires h.Valid() && id in h.disk.permits && h.disk.permits[id].state == Issued
    modifies h
    ensures h.Valid() && Fate(h.disk) == old(Fate(h.disk)) && (old(h.faulted) ==> h.faulted)
    ensures h.disk == old(h.disk).(permits := old(h.disk).permits[id := now])
    ensures now == old(h.disk).permits[id].(state := now.state)
    ensures ok ==> !expired && now.state == Consuming
    ensures !expired ==> Remembered(ok, h.faulted, old(h.faulted))
  {
    hide Host.Valid, Fate, Inv, PermitStep;
    PermitLife(h.disk, id);
    now := h.disk.permits[id];
    var next := if expired then Revoked else Consuming;
    var written := h.SetPermit(id, next);
    if written { now := now.(state := next); }
    ok := written && !expired;
    assert !written ==> h.disk.permits[id := now] == h.disk.permits;
  }

  lemma GrantedTwice(d: Disk, id: PermitId, p: Permit, q: Permit)
    requires id !in d.permits
    ensures var m := d.(permits := d.permits[id := p]); Granted(d, m.(permits := m.permits[id := q]), id, q.grant)
  {
    assert d.permits[id := p][id := q] == d.permits[id := q];
  }

  /** A fresh permit is stored and claimed; an expired one is revoked instead. */
  method IssueAndClaim(h: Host, r: RunId, id: PermitId, grant: Grant, resolves: bool, expired: bool) returns (ok: bool)
    requires h.Valid() && id !in h.disk.permits
    modifies h
    ensures h.Valid() && Fate(h.disk) == old(Fate(h.disk)) && Granted(old(h.disk), h.disk, id, grant)
    ensures ok ==> resolves && !expired && id in h.disk.permits && h.disk.permits[id] == Permit(Consuming, r, grant)
    ensures resolves && !expired ==> Remembered(ok, h.faulted, old(h.faulted))
    ensures old(h.faulted) ==> h.faulted
  {
    hide Host.Valid, Fate, Inv, Granted;
    var p := Permit(Issued, r, grant);
    ok := h.IssuePermit(id, p);
    GrantedOne(old(h.disk), h.disk, id, p);
    if !ok || !resolves { return false; }
    var now;
    ok, now := ClaimIssued(h, id, expired);
    GrantedTwice(old(h.disk), id, p, now);
  }

  /** Issue, resolve, claim: from no permit to a capability. */
  method Authorize(h: Host, r: RunId, id: PermitId, base: Tree, binding: ViewBinding, sealed: Tree, evidence: Evidence, w: World)
    returns (cap: Option<Capability>)
    requires h.Valid() && id !in h.disk.permits
    modifies h
    ensures h.Valid() && Fate(h.disk) == old(Fate(h.disk)) && (old(h.faulted) ==> h.faulted)
    ensures Granted(old(h.disk), h.disk, id, GrantFor(base, binding, sealed, evidence))
    ensures cap.Some? ==>
              && Sufficient(evidence, sealed) && w.resolves && !w.expiresEarly
              && cap.value == Capability(id, Permit(Consuming, r, GrantFor(base, binding, sealed, evidence)), base, sealed)
              && id in h.disk.permits && h.disk.permits[id] == cap.value.permit
    ensures !h.faulted && Sufficient(evidence, sealed) && w.resolves && !w.expiresEarly ==> cap.Some?
  {
    hide Host.Valid, Fate, Inv;
    var grant := GrantFor(base, binding, sealed, evidence);
    if !Sufficient(evidence, sealed) { return None; }
    var ok := IssueAndClaim(h, r, id, grant, w.resolves, w.expiresEarly);
    return if ok then Some(Capability(id, Permit(Consuming, r, grant), base, sealed)) else None;
  }

  /** After the swap: confirm the permit, read the final tree, write it to the receipt. */
  method Recheck(h: Host, r: RunId, base: Tree, sealed: Tree, epoch: nat) returns (ok: bool)
    requires h.Valid() && Owner(h.disk, r) && InState(h.disk, r, PendingDb) && h.disk.journals[r].kind == Promotion
    requires h.disk.journals[r].base == base && h.disk.journals[r].target == sealed
    requires h.disk.persistent == Some(sealed)
    requires r in h.disk.receipts && h.disk.receipts[r] == OpenReceipt(base, sealed, epoch)
    modifies h
    ensures h.Valid() && h.disk == old(h.disk)
    ensures Remembered(ok, h.faulted, old(h.faulted))
  {
    hide Host.Valid, Fate, Inv;
    ok := h.Attempt();
    if !ok { return; }
    var final := h.ReadLive();
    if final.None? { return false; }
    ok := h.WriteReceipt(r, h.disk.receipts[r].(final := final.value));
    assert h.disk.receipts == old(h.disk).receipts;
  }

  /** With the receipt open: promote, then confirm what was promoted. */
  method PromoteOpened(h: Host, r: RunId, cap: Capability, epoch: nat, w: World) returns (a: Attempt)
    requires h.Valid() && h.disk.lock == Some(Lock(r, cap.base)) && r !in h.disk.journals && !DbNames(h.disk, r)
    requires Issuable(cap.permit.grant) && cap.id in h.disk.permits && h.disk.permits[cap.id] == cap.permit && Bound(cap, r)
    requires r in h.disk.receipts && h.disk.receipts[r] == OpenReceipt(cap.base, cap.proposal, epoch)
    requires h.disk.persistent == Some(cap.base) && (forall e <- h.disk.events :: e.run != r)
    modifies h
    ensures h.Valid() && Fate(h.disk) == old(Fate(h.disk)) && Confined(old(h.disk), h.disk, r, cap.id)
    ensures h.disk.receipts == old(h.disk).receipts && h.disk.lock == old(h.disk).lock && h.disk.db == old(h.disk).db
    ensures r in h.disk.journals ==> SameButState(JournalOf(ProposalPlan(cap), cap.proposal), h.disk.journals[r])
    ensures a == Done || (a.Threw? && a.promoted) ==>
              && !w.expires && w.intact && w.assembled == Some(cap.proposal) && w.latest == Some(cap.permit.grant.binding)
              && InState(h.disk, r, PendingDb) && h.disk.persistent == Some(cap.proposal)
              && cap.id in h.disk.permits && h.disk.permits[cap.id].state == Consumed
    ensures a.Threw? && !a.promoted ==> Undone(h.disk, r, Some(cap.base)) && (a.conflict ==> ViewMoved(w, cap.permit.grant.binding))
    ensures a.Threw? && a.promoted ==> !a.conflict
    ensures a == Stuck ==>
              h.faulted && InState(h.disk, r, Promoting) && cap.id in h.disk.permits && h.disk.permits[cap.id].state == Consumed
    ensures !h.faulted ==>
              (a == Done <==> !w.expires && w.intact && w.assembled == Some(cap.proposal) && w.latest == Some(cap.permit.grant.binding))
  {
    hide Host.Valid, Fate, Elsewhere, ReceiptStep, Confined, Inv;
    var out := PromoteAuthorized(h, r, cap, w.expires, w.intact, w.assembled, w.partial, w.latest);
    ElsewhereFacts(old(h.disk), h.disk, r, cap.id);
    if out == RecoveryRequired { return Stuck; }
    if out != Promoted { return Threw(out == Conflict, false); }
    var ok := Recheck(h, r, cap.base, cap.proposal, epoch);
    return if ok then Done else Threw(false, true);
  }

  /** The block whose failures the coordinator catches. */
  method TryToPromote(h: Host, r: RunId, id: PermitId, base: Tree, binding: ViewBinding, sealed: Tree, evidence: Evidence, epoch: nat, w: World)
    returns (a: Attempt)
    requires h.Valid() && h.disk.lock == Some(Lock(r, base)) && r !in h.disk.journals && r !in h.disk.receipts
    requires id !in h.disk.permits
    modifies h
    ensures h.Valid() && Fate(h.disk) == old(Fate(h.disk)) && Confined(old(h.disk), h.disk, r, id)
    ensures h.disk.lock == old(h.disk).lock && h.disk.db == old(h.disk).db && !DbNames(h.disk, r)
    ensures r in h.disk.receipts ==> h.disk.receipts[r] == OpenReceipt(base, sealed, epoch)
    ensures r in h.disk.journals ==>
              r in h.disk.receipts && SameButState(Journal(Promotion, Preparing, base, sealed, id, None, Some(binding)), h.disk.journals[r])
    ensures a == Done || (a.Threw? && a.promoted) ==>
              && Sufficient(evidence, sealed) && Willing(w, sealed, binding)
              && InState(h.disk, r, PendingDb) && h.disk.persistent == Some(sealed)
              && id in h.disk.permits && h.disk.permits[id].state == Consumed
    ensures a.Threw? && !a.promoted ==> Undone(h.disk, r, Some(base)) && (a.conflict ==> ViewMoved(w, binding))
    ensures a.Threw? && a.promoted ==> !a.conflict
    ensures a == Stuck ==>
              h.faulted && InState(h.disk, r, Promoting) && id in h.disk.permits && h.disk.permits[id].state == Consumed
    ensures !h.faulted ==> (a == Done <==> Sufficient(evidence, sealed) && Willing(w, sealed, binding))
  {
    hide Host.Valid, Fate, ReceiptStep, Confined, Granted, Inv;
    HostInv(h);
    Admitted(h.disk, r);
    NoEvents(h.disk, r);
    var cap := Authorize(h, r, id, base, binding, sealed, evidence, w);
    ghost var granted := h.disk;
    GrantedConfined(old(h.disk), granted, r, id, GrantFor(base, binding, sealed, evidence));
    if cap.None? { return Threw(false, false); }
    MayOpen(h.disk, r, sealed, epoch);
    var ok := h.WriteReceipt(r, OpenReceipt(base, sealed, epoch));
    ghost var prior := h.disk;
    ReceiptConfined(granted, prior, r, id);
    ConfinedTrans(old(h.disk), granted, prior, r, id);
    if !ok { return Threw(false, false); }
    a := PromoteOpened(h, r, cap.value, epoch, w);
    ConfinedTrans(old(h.disk), prior, h.disk, r, id);
  }

  lemma NoEvents(d: Disk, r: RunId)
    requires Inv(d) && r !in d.journals && r !in d.receipts
    ensures forall e <- d.events :: e.run != r
  {
    forall e <- d.events ensures e.run != r { assert EventOk(d, e); }
  }

  lemma MayOpen(d: Disk, r: RunId, sealed: Tree, epoch: nat)
    requires Owner(d, r) && r !in d.journals && r !in d.receipts
    ensures ReceiptStep(d, r, OpenReceipt(d.lock.value.tree, sealed, epoch))
  {
  }

  lemma ElsewhereFacts(d: Disk, e: Disk, r: RunId, p: PermitId)
    requires Elsewhere(d, e, r, p)
    ensures Confined(d, e, r, p)
    ensures e.receipts == d.receipts && e.lock == d.lock && e.db == d.db && e.events == d.events
    ensures p in e.permits <==> p in d.permits
    ensures p in d.permits ==> e.permits[p].grant == d.permits[p].grant
  {
  }

  /** Revocation after a failure; its own failure is swallowed. */
  method Revoke(h: Host, r: RunId, id: PermitId)
    requires h.Valid()
    modifies h
    ensures h.Valid() && Fate(h.disk) == old(Fate(h.disk)) && Confined(old(h.disk), h.disk, r, id)
    ensures h.disk == old(h.disk).(permits := h.disk.permits)
    ensures old(h.faulted) ==> h.faulted
    ensures id in old(h.disk).permits && old(h.disk).permits[id].state == Consumed ==> h.disk == old(h.disk)
  {
    hide Host.Valid, Fate, Inv, PermitStep;
    if id in h.disk.permits && h.disk.permits[id].state in {Issued, Consuming} {
      PermitLife(h.disk, id);
      var _ := h.SetPermit(id, Revoked);
    }
  }

  function RejectedReceipt(decision: Decision, base: Tree, final: Tree, epoch: nat): Receipt {
    Receipt(PendingDisposition, decision, base, final, None, false, epoch + 1)
  }

  lemma MayReject(d: Disk, r: RunId, decision: Decision, base: Tree, final: Tree, epoch: nat)
    requires decision != Committed && (r in d.receipts ==> d.receipts[r].phase != Terminal)
    requires r in d.journals ==> d.journals[r].state in {Preparing, RolledBack}
    ensures ReceiptStep(d, r, RejectedReceipt(decision, base, final, epoch))
  {
  }

  method Reject(h: Host, r: RunId, decision: Decision, base: Tree, epoch: nat) returns (ok: bool)
    requires h.Valid() && decision != Committed && Undone(h.disk, r, Some(base))
    requires r in h.disk.receipts ==> h.disk.receipts[r].phase != Terminal
    modifies h
    ensures h.Valid() && Fate(h.disk) == old(Fate(h.disk)) && Remembered(ok, h.faulted, old(h.faulted))
    ensures h.disk == old(h.disk).(
              receipts := if ok then old(h.disk).receipts[r := RejectedReceipt(decision, base, base, epoch)] else old(h.disk).receipts)
  {
    hide Host.Valid, Fate, Inv, ReceiptStep;
    var final := h.ReadLive();
    ok := final.Some?;
    if ok {
      MayReject(h.disk, r, decision, base, final.value, epoch);
      ok := h.WriteReceipt(r, RejectedReceipt(decision, base, final.value, epoch));
    }
  }

  /** Before the commit point an unfinished swap can always be undone. */
  lemma RestoreSucceeds(d: Disk, r: RunId)
    requires Inv(d) && Swapping(d, r) && !DbNames(d, r)
    ensures RestoreBackup(d, r).1
  {
    hide Inv, RestoreBackup, Kept;
    if r in d.backups {
      RestoreBackupKeeps(d, r);
    } else {
      UncommittedBase(d, r);
      RestoreBackupResult(d, r);
    }
  }

  /** Undoes the promotion if there is one, revokes the permit, and records the rejection. */
  method Recoil(h: Host, r: RunId, id: PermitId, base: Tree, epoch: nat, conflict: bool, promoted: bool)
    returns (fin: Finalization)
    requires h.Valid() && !DbNames(h.disk, r)
    requires if promoted then InState(h.disk, r, PendingDb) && h.disk.journals[r].base == base
             else Undone(h.disk, r, Some(base))
    requires r in h.disk.receipts ==> h.disk.receipts[r].phase != Terminal
    modifies h
    ensures h.Valid() && Fate(h.disk) == old(Fate(h.disk)) && Confined(old(h.disk), h.disk, r, id)
    ensures fin == NeedsRecovery ==> h.faulted && promoted && h.disk.journals == old(h.disk).journals
    ensures fin.RejectedRun? || fin == Unreported ==> Undone(h.disk, r, Some(base))
    ensures fin.RejectedRun? ==>
              && fin.decision == (if conflict then Conflicted else Aborted)
              && r in h.disk.receipts && h.disk.receipts[r] == RejectedReceipt(fin.decision, base, base, epoch)
    ensures fin == Unreported ==> h.faulted && h.disk.receipts == old(h.disk).receipts
    ensures fin != CommittedRun
    ensures old(h.faulted) ==> h.faulted
  {
    hide Host.Valid, Fate, Confined, RestoreBackup;
    if promoted {
      HostInv(h);
      RestoreSucceeds(h.disk, r);
      hide Inv;
      var undone := RollbackJournal(h, r);
      SwapConfined(old(h.disk), h.disk, r, id);
      if !undone { return NeedsRecovery; }
    }
    hide Inv;
    ghost var back := h.disk;
    SwapConfined(old(h.disk), back, r, id);
    Revoke(h, r, id);
    ConfinedTrans(old(h.disk), back, h.disk, r, id);
    ghost var revoked := h.disk;
    var decision := if conflict then Conflicted else Aborted;
    var ok := Reject(h, r, decision, base, epoch);
    ReceiptConfined(revoked, h.disk, r, id);
    ConfinedTrans(old(h.disk), revoked, h.disk, r, id);
    fin := if ok then RejectedRun(decision) else Unreported;
  }

  lemma SwapConfined(d: Disk, e: Disk, r: RunId, id: PermitId)
    requires e == d.(persistent := e.persistent, staging := e.staging, backups := e.backups, failed := e.failed,
                     journals := e.journals)
    requires e.journals == d.journals || (r in d.journals && r in e.journals && e.journals == d.journals[r := e.journals[r]])
    ensures Confined(d, e, r, id)
  {
  }

  /** The promoting half of `verifyAndFinalize`, whose outcomes are exhaustive: the
      run is committed with exactly the sealed tree live and its journal waiting
      for the database, or the agent needs recovery, or the tree is exactly as it
      was and the journal is absent, PREPARING or ROLLED_BACK.  Without faults it
      commits if and only if the evidence is sufficient and the world agrees. */
  method FinalizePromotion(h: Host, r: RunId, id: PermitId, base: Tree, binding: ViewBinding, sealed: Tree, evidence: Evidence, epoch: nat, w: World)
    returns (fin: Finalization)
    requires h.Valid() && h.disk.lock == Some(Lock(r, base)) && r !in h.disk.journals && r !in h.disk.receipts
    requires id !in h.disk.permits
    modifies h
    ensures h.Valid() && Fate(h.disk) == old(Fate(h.disk)) && Confined(old(h.disk), h.disk, r, id)
    ensures fin == CommittedRun ==>
              && Sufficient(evidence, sealed) && Willing(w, sealed, binding)
              && h.disk.persistent == Some(sealed) && InState(h.disk, r, PendingDb)
              && SameButState(Journal(Promotion, Preparing, base, sealed, id, None, Some(binding)), h.disk.journals[r])
              && id in h.disk.permits && h.disk.permits[id].state == Consumed
              && r in h.disk.receipts && h.disk.receipts[r] == OpenReceipt(base, sealed, epoch)
    ensures fin.RejectedRun? || fin == Unreported ==> Undone(h.disk, r, Some(base)) && old(h.disk).persistent == Some(base)
    ensures fin.RejectedRun? ==>
              && fin.decision in {Conflicted, Aborted} && (fin.decision == Conflicted ==> ViewMoved(w, binding))
              && r in h.disk.receipts && h.disk.receipts[r] == RejectedReceipt(fin.decision, base, base, epoch)
    ensures fin.RejectedRun? && SettledHead(old(h.disk)) ==> Settled(h.disk)
    ensures fin == NeedsRecovery ==> Swapping(h.disk, r) && h.disk.journals[r].base == base && h.faulted
    ensures fin == Unreported ==> h.faulted && (r in h.disk.receipts ==> h.disk.receipts[r] == OpenReceipt(base, sealed, epoch))
    ensures !h.faulted ==> (fin == CommittedRun <==> Sufficient(evidence, sealed) && Willing(w, sealed, binding))
  {
    hide Host.Valid, Fate, Confined, Inv, Sufficient, Willing, ViewMoved;
    HostInv(h);
    Admitted(h.disk, r);
    var a := TryToPromote(h, r, id, base, binding, sealed, evidence, epoch, w);
    ghost var tried := h.disk;
    match a
    case Done => fin := CommittedRun;
    case Stuck => fin := NeedsRecovery;
    case Threw(conflict, promoted) =>
      fin := Recoil(h, r, id, base, epoch, conflict, promoted);
      ConfinedTrans(old(h.disk), tried, h.disk, r, id);
  }
}
