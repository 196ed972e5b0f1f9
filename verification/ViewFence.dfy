/**
 The agent row whose generation and session epoch fence every callback of a run.
 The ghost history lists every View the row ever had.
 */
module ViewFence {
  import opened Wrappers
  import PathPolicy
  import FileTree
  import Changes

  /** A View is identified by a digest of all its fields; the fields are the identity. */
  datatype View = View(head: string, generation: int, versioned: string, managed: string, live: string,
                       epoch: int, config: int, policy: int)

  datatype RunRow = RunRow(lease: string, baseView: View)
  /** What a run remembers of the agent it started on. */
  datatype Start = Start(view: View, epoch: int)
  datatype Status = Ready | Busy | Stopped | Failed

  /** Neither counter goes back, and one of them advances. */
  predicate Later(v: View, w: View) {
    v.generation <= w.generation && v.epoch <= w.epoch && v != w && (v.generation < w.generation || v.epoch < w.epoch)
  }

  ghost predicate Fresh(history: seq<View>) {
    forall i, k :: 0 <= i < k < |history| ==> Later(history[i], history[k])
  }

  lemma FreshAppend(history: seq<View>, w: View)
    requires Fresh(history) && history != [] && Later(history[|history| - 1], w)
    ensures Fresh(history + [w])
  {
    var h := history + [w];
    forall i, k | 0 <= i < k < |h| ensures Later(h[i], h[k]) {
      if k == |history| && i < |history| - 1 { assert Later(history[i], history[|history| - 1]); }
    }
  }

  function Max(a: int, b: int): int { if a < b then b else a }

  class Agent {
    var head: string
    var generation: int
    var versioned: string
    var managed: string
    var live: string
    var epoch: int
    var config: int
    var policy: int
    var currentView: View
    var lease: Option<string>
    var status: Status
    var recoveryRequired: bool
    /** The last sequence number in the agent's version index, and whether the run under the lock staged it. */
    var sequence: int
    var staged: bool
    ghost var history: seq<View>

    function ViewNow(): View
      reads `head, `generation, `versioned, `managed, `live, `epoch, `config, `policy
    {
      View(head, generation, versioned, managed, live, epoch, config, policy)
    }

    /** The recorded View is the View of the row, every View was later than all before
        it, and the version index is never ahead of the generation by more than the
        version being promoted. */
    ghost predicate Valid()
      reads `head, `generation, `versioned, `managed, `live, `epoch, `config, `policy, `currentView, `sequence, `staged, `history
    {
      && currentView == ViewNow() && history != [] && history[|history| - 1] == currentView && Fresh(history)
      && sequence <= generation + if staged then 1 else 0
    }

    constructor (head: string, versioned: string, managed: string, live: string, policy: int)
      ensures Valid() && generation == 1 && epoch == 0 && sequence == 1 && !staged && history == [currentView]
    {
      this.head, this.versioned, this.managed, this.live, this.policy := head, versioned, managed, live, policy;
      generation, epoch, config, sequence, staged := 1, 0, 1, 1, false;
      currentView := View(head, 1, versioned, managed, live, 0, 1, policy);
      lease, status, recoveryRequired := None, Ready, false;
      history := [View(head, 1, versioned, managed, live, 0, 1, policy)];
    }

    /** Past Views are never forgotten: at most one new View is appended. */
    twostate predicate Minted()
      reads `history, `currentView
    {
      history == old(history) || (history == old(history) + [currentView] && Later(old(currentView), currentView))
    }

    predicate LeaseMatches(stored: RunRow, start: Start, requested: RunRow)
      reads this
    {
      && lease == Some(requested.lease) && stored.lease == requested.lease
      && requested.baseView == start.view && stored.baseView == start.view
      && currentView == start.view && epoch == start.epoch
    }

    method RefreshViewId()
      requires history != [] && Fresh(history) && sequence <= generation + if staged then 1 else 0
      requires history[|history| - 1] == ViewNow() || Later(history[|history| - 1], ViewNow())
      modifies `currentView, `history
      ensures Valid()
      ensures history == if old(history)[|old(history)| - 1] == currentView then old(history) else old(history) + [currentView]
    {
      currentView := ViewNow();
      if history[|history| - 1] != ViewNow() {
        FreshAppend(history, ViewNow());
        history := history + [ViewNow()];
      }
    }

    /** The run's version enters the index: one more than the last sequence. */
    method StageVersion()
      requires Valid() && !staged
      modifies `sequence, `staged
      ensures Valid() && staged && sequence == old(sequence) + 1 && history == old(history)
    {
      sequence, staged := sequence + 1, true;
    }

    /** A rolled-back run takes its version off the index. */
    method RevertVersion()
      requires Valid() && staged
      modifies `sequence, `staged
      ensures Valid() && !staged && sequence == old(sequence) - 1 && history == old(history)
    {
      sequence, staged := sequence - 1, false;
    }

    /** A committed run: the database mutation that publishes its version. */
    method PersistCompleted(stored: RunRow, start: Start, requested: RunRow, version: string, snapshot: string, final: string)
      returns (stale: bool)
      requires Valid() && staged
      modifies this
      ensures Valid() && Minted()
      ensures stale <==> !old(LeaseMatches(stored, start, requested))
      ensures stale ==> ViewNow() == old(ViewNow()) && history == old(history) && lease == old(lease) && staged
      ensures !stale ==>
                && generation == Max(old(generation) + 1, sequence) && epoch == old(epoch) && !staged
                && currentView == View(version, generation, snapshot, old(managed), final, epoch, old(config), old(policy))
                && history == old(history) + [currentView] && sequence == old(sequence)
    {
      hide Fresh;
      if !LeaseMatches(stored, start, requested) { return true; }
      generation := Max(generation + 1, sequence);
      versioned, live, head, staged := snapshot, final, version, false;
      RefreshViewId();
      status := Busy;
      stale := false;
    }

    /** A new session: every View of the old one is fenced off, and no run holds the lease. */
    method ResetSession(next: int)
      requires Valid() && next >= epoch
      modifies `epoch, `currentView, `history, `lease
      ensures Valid() && Minted() && epoch == next && lease == None
      ensures currentView == old(currentView).(epoch := next)
      ensures history == if next == old(epoch) then old(history) else old(history) + [currentView]
    {
      epoch, lease := next, None;
      RefreshViewId();
    }

    /** A rejected run resets the session. */
    method PersistRejected(stored: RunRow, start: Start, requested: RunRow, aborted: bool) returns (stale: bool)
      requires Valid()
      modifies this
      ensures Valid() && Minted() && staged == old(staged) && sequence == old(sequence)
      ensures stale <==> !old(LeaseMatches(stored, start, requested))
      ensures stale ==> ViewNow() == old(ViewNow()) && lease == old(lease)
      ensures !stale ==>
                && lease == None && epoch == Max(old(epoch) + 1, start.epoch + 1)
                && currentView == old(currentView).(epoch := epoch) && history == old(history) + [currentView]
    {
      hide Fresh;
      if !LeaseMatches(stored, start, requested) { return true; }
      ResetSession(Max(epoch + 1, start.epoch + 1));
      status := if aborted then Failed else Ready;
      stale := false;
    }

    /** A failed or cancelled run resets the session, and may leave the agent to recovery. */
    method PersistFailure(stored: RunRow, start: Start, requested: RunRow, receiptEpoch: Option<int>,
                          cancelled: bool, recoveryPending: bool) returns (stale: bool)
      requires Valid()
      modifies this
      ensures Valid() && Minted() && staged == old(staged) && sequence == old(sequence)
      ensures stale <==> !old(LeaseMatches(stored, start, requested))
      ensures stale ==> ViewNow() == old(ViewNow()) && lease == old(lease)
      ensures !stale ==>
                && lease == None && epoch > old(epoch) && currentView == old(currentView).(epoch := epoch)
                && history == old(history) + [currentView]
                && (recoveryPending ==> recoveryRequired)
    {
      hide Fresh;
      if !LeaseMatches(stored, start, requested) { return true; }
      if status != Stopped { status := if cancelled && !recoveryPending then Ready else Failed; }
      var floor := if receiptEpoch.Some? then receiptEpoch.value else start.epoch + 1;
      ResetSession(Max(epoch + 1, floor));
      recoveryRequired := recoveryRequired || recoveryPending;
      stale := false;
    }

    /** A published version rollback: new head, new hashes, new session. */
    method PublishRollback(version: string, v: string, m: string, l: string)
      requires Valid() && staged
      modifies this
      ensures Valid() && Minted() && !staged && sequence == old(sequence)
      ensures generation == old(generation) + 1 && epoch == old(epoch) + 1
      ensures currentView == View(version, generation, v, m, l, epoch, old(config), old(policy))
      ensures history == old(history) + [currentView]
    {
      hide Fresh;
      status, epoch, generation, staged := Busy, epoch + 1, generation + 1, false;
      head, versioned, managed, live := version, v, m, l;
      RefreshViewId();
    }

    /** A rollback that needs recovery; the epoch may already have been advanced. */
    method RollbackNeedsRecovery(start: Start)
      requires Valid()
      modifies this
      ensures Valid() && Minted() && recoveryRequired && lease == None
      ensures epoch == Max(old(epoch), start.epoch + 1) && currentView == old(currentView).(epoch := epoch)
    {
      status, recoveryRequired := Failed, true;
      ResetSession(Max(epoch, start.epoch + 1));
    }

    /** A successful configuration update, prepared on an earlier copy of the row and
        written back whole; it is refused if the View or configuration has moved. */
    method UpdateConfiguration(before: View, name: string, v: string, m: string, l: string) returns (refused: bool)
      requires Valid() && !staged
      modifies this
      ensures Valid() && Minted()
      ensures refused <==> old(currentView) != before || old(config) != before.config
      ensures refused ==> ViewNow() == old(ViewNow()) && history == old(history)
      ensures !refused ==>
                && generation == old(generation) + 1 && epoch == old(epoch) + 1 && config == old(config) + 1
                && currentView == View(old(head), generation, v, m, l, epoch, config, old(policy))
                && history == old(history) + [currentView]
    {
      if currentView != before || config != before.config { return true; }
      head, generation, epoch, config, policy := before.head, before.generation + 1, before.epoch + 1, before.config + 1, before.policy;
      versioned, managed, live := v, m, l;
      RefreshViewId();
      refused := false;
    }

    /** A failed acknowledgement locks the agent and fences the run. */
    method MarkRecoveryRequired()
      requires Valid()
      modifies this
      ensures Valid() && Minted() && recoveryRequired && lease == None && epoch == old(epoch) + 1
      ensures currentView == old(currentView).(epoch := epoch) && history == old(history) + [currentView]
    {
      status, recoveryRequired := Failed, true;
      ResetSession(epoch + 1);
    }

    /** The repair after that: the projected head is the database head already, so an
        agent that is locked keeps its View. */
    method RepairFailedAcknowledge(projectedHead: Option<string>)
      requires Valid() && (projectedHead.Some? ==> projectedHead.value == head)
      modifies this
      ensures Valid() && Minted() && recoveryRequired && lease == None
      ensures epoch == old(epoch) + if old(recoveryRequired) then 0 else 1
      ensures currentView == old(currentView).(epoch := epoch)
    {
      var alreadyLocked := recoveryRequired;
      status, recoveryRequired := Failed, true;
      ResetSession(if alreadyLocked then epoch else epoch + 1);
    }
  }

  /** No View ever recurs: neither its identifier nor its pair of counters, even when
      the tree goes back to an earlier content. */
  lemma ViewsNeverRecur(a: Agent, i: nat, k: nat)
    requires a.Valid() && i < k < |a.history|
    ensures a.history[i] != a.history[k]
    ensures (a.history[i].generation, a.history[i].epoch) != (a.history[k].generation, a.history[k].epoch)
  {
    assert Later(a.history[i], a.history[k]);
  }

  /** Once a later View exists, no callback of a run bound to the earlier one is accepted,
      whatever lease it presents. */
  lemma FencedForever(a: Agent, i: nat, stored: RunRow, start: Start, requested: RunRow)
    requires a.Valid() && i < |a.history| - 1 && start.view == a.history[i]
    ensures !a.LeaseMatches(stored, start, requested)
  {
    ViewsNeverRecur(a, i, |a.history| - 1);
  }

  /** The View that `stageAcknowledge` writes into the receipt before the database commit. */
  function StagedView(base: View, version: string, snapshot: string, managedLive: string, final: string): View {
    View(version, base.generation + 1, snapshot, managedLive, final, base.epoch, base.config, base.policy)
  }

  /** The View `persistCompletedRun` stores. */
  function PublishedView(row: View, sequence: int, version: string, snapshot: string, final: string): View {
    View(version, Max(row.generation + 1, sequence), snapshot, row.managed, final, row.epoch, row.config, row.policy)
  }

  /** Receipt and database agree on the next View exactly when the staged version's
      sequence does not outrun the generation and the platform-managed hash is the
      recorded one. */
  lemma NextViewsAgreeIff(row: View, sequence: int, version: string, snapshot: string, managedLive: string, final: string)
    ensures StagedView(row, version, snapshot, managedLive, final) == PublishedView(row, sequence, version, snapshot, final)
            <==> sequence <= row.generation + 1 && managedLive == row.managed
  {
  }

  /** The commit as a whole: in every reachable row, after a verdict without a
      platform-managed failure, the View stored by the commit is the one the receipt
      already names, although the receipt hashes the promoted tree and the row keeps
      the hash of the base. */
  method CommitAgreesWithReceipt(a: Agent, stored: RunRow, start: Start, requested: RunRow,
                                 version: string, snapshot: string, final: string,
                                 base: FileTree.Entries, promoted: FileTree.Entries, changes: seq<Changes.Change>,
                                 limits: Changes.Limits, guarded: PathPolicy.Path -> bool, hash: FileTree.Entries -> string)
    returns (receipt: View, stale: bool)
    requires a.Valid() && !a.staged && a.managed == hash(Changes.Part(base, PathPolicy.Managed))
    requires Changes.IsDiff(changes, base, promoted)
    requires forall p: PathPolicy.Path :: !Changes.Earned(Changes.ManagedChanged(p), changes, limits, guarded)
    modifies a
    ensures a.Valid()
    ensures receipt == StagedView(start.view, version, snapshot, hash(Changes.Part(promoted, PathPolicy.Managed)), final)
    ensures !stale ==> a.currentView == receipt
  {
    a.StageVersion();
    var managedLive := hash(Changes.Part(promoted, PathPolicy.Managed));
    receipt := StagedView(start.view, version, snapshot, managedLive, final);
    ghost var row := a.currentView;
    Changes.NoManagedFailureIff(base, promoted, changes, limits, guarded);
    NextViewsAgreeIff(row, a.sequence, version, snapshot, managedLive, final);
    stale := a.PersistCompleted(stored, start, requested, version, snapshot, final);
  }
}
