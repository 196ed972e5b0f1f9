/**
 Rebuilding the product database of one agent from the Worker's append-only facts:
 a projection, safe to repeat.
 */
module WorkerProjection {
  import opened Wrappers

  datatype Decision = Committed | Quarantined | Conflicted | Aborted
  datatype RunStatus = Queued | Running | Completed | Failed | Cancelled
  datatype AgentStatus = Ready | Busy | Stopped | Error
  datatype Authority = Authoritative | Rejected | Pending
  datatype Disposition = Resumed | Reset

  datatype HeadView = HeadView(viewId: string, head: string, generation: int, epoch: int, versioned: string,
                               managed: string, live: string, config: int, policy: int)
  datatype Transition = Transition(run: Option<string>, lease: Option<string>, baseView: Option<string>,
                                   baseGeneration: int, isAgentCommit: bool, proposal: Option<string>, permit: Option<string>)
  datatype Receipt = Receipt(transition: string, sequence: nat, decision: Decision, viewId: string, generation: int,
                             reasons: seq<string>)
  datatype Proposal = Proposal(id: string, artifact: string, changedPaths: seq<string>)
  datatype Evidence = Evidence(checks: seq<string>, policyHash: string)
  datatype FactVersion = FactVersion(id: string, snapshot: string, generation: int, viewId: string)
  datatype Facts = Facts(head: HeadView, versions: seq<FactVersion>, transitions: map<string, Transition>,
                         receipts: seq<Receipt>, proposals: map<string, Proposal>, evidence: map<string, Evidence>,
                         consumedPermits: set<string>)

  /** The policy the Worker reports, when it is healthy. */
  datatype PolicyId = PolicyId(profile: string, version: string, hash: string, checks: string)

  datatype Gate = Gate(decision: Decision, nextView: string, nextGeneration: int, failure: Option<string>,
                       candidate: Option<string>, checks: seq<string>, changedPaths: seq<string>,
                       disposition: Disposition, baseView: string, proposal: Option<string>, policy: Option<PolicyId>)
  datatype Run = Run(agent: string, lease: string, status: RunStatus, terminal: bool, gate: Option<Gate>,
                     error: Option<string>, baseView: string, output: string, completedAt: Option<int>)
  datatype Message = Message(content: string, authority: Authority, viewId: string, proposal: Option<string>)
  datatype VersionRow = VersionRow(id: string, sequence: int, parent: Option<string>, snapshot: string, generation: int,
                                   viewId: string, carried: Carried)
  /** What a re-projected version keeps from its earlier row. */
  datatype Carried = Carried(pathPolicy: string, changedPaths: seq<string>, createdAt: int)
  datatype AgentRow = AgentRow(view: HeadView, status: AgentStatus, lease: Option<string>, thread: Option<string>,
                               needsReconciliation: bool, lastError: Option<string>, recoveryRequired: bool, updatedAt: int)

  datatype Product = Product(agents: map<string, AgentRow>, runs: map<string, Run>, assistants: map<string, Message>,
                             versions: map<string, seq<VersionRow>>)

  datatype ProjectionError = BaseViewMissing | CommitProofMissing | PolicyMissing

  // ----------------------------------------------------------- one run's new row

  predicate Cancel(r: Receipt) { exists code <- r.reasons :: "RUN_CANCELLED" <= code }

  function WorkerRunStatus(d: Decision, cancelled: bool): RunStatus {
    if d == Decision.Aborted then (if cancelled then Cancelled else RunStatus.Failed) else Completed
  }

  /** The product row does not yet say what the terminal fact says. */
  predicate Gap(run: Run, r: Receipt) {
    || !run.terminal || run.status != WorkerRunStatus(r.decision, Cancel(r)) || run.gate.None?
    || run.gate.value.decision != r.decision || run.gate.value.nextView != r.viewId
    || run.gate.value.nextGeneration != r.generation
  }

  function FailureOf(d: Decision): Option<string> {
    match d
    case Committed => None
    case Quarantined => Some("agent_wrong")
    case Conflicted => Some("state_conflict")
    case Aborted => Some("infra_errored")
  }

  function Or<T>(a: Option<T>, b: Option<T>): Option<T> { if a.Some? then a else b }

  function GetIn<T>(m: map<string, T>, k: Option<string>): Option<T> {
    if k.Some? && k.value in m then Some(m[k.value]) else None
  }

  function PolicyOf(run: Run, health: Option<PolicyId>, evidence: Option<Evidence>): Option<PolicyId> {
    if health.Some? then health
    else if run.gate.Some? && run.gate.value.policy.Some? then
      Some(if evidence.Some? then run.gate.value.policy.value.(hash := evidence.value.policyHash) else run.gate.value.policy.value)
    else None
  }

  function Summary(run: Run, facts: Facts, t: Transition, r: Receipt, health: Option<PolicyId>): Result<Gate, ProjectionError> {
    var proposal := GetIn(facts.proposals, t.proposal);
    var evidence := GetIn(facts.evidence, t.proposal);
    var prior := run.gate;
    if t.baseView.None? then Failure(BaseViewMissing)
    else if r.decision == Committed && t.isAgentCommit &&
            (proposal.None? || evidence.None? || t.permit.None? || t.permit.value !in facts.consumedPermits) then
      Failure(CommitProofMissing)
    else if PolicyOf(run, health, evidence).None? then Failure(PolicyMissing)
    else
      Success(Gate(
        r.decision, r.viewId, r.generation, FailureOf(r.decision),
        if proposal.Some? then Some(proposal.value.artifact) else if prior.Some? then prior.value.candidate else None,
        if evidence.Some? then evidence.value.checks else if prior.Some? then prior.value.checks else [],
        if proposal.Some? then proposal.value.changedPaths else if prior.Some? then prior.value.changedPaths else [],
        if r.decision == Committed && !Gap(run, r) && prior.Some? then prior.value.disposition else Reset,
        t.baseView.value,
        if proposal.Some? then Some(proposal.value.id) else None,
        PolicyOf(run, health, evidence)))
  }

  /** The run and its assistant message after one terminal fact. */
  function ProjectRun(run: Run, assistant: Option<Message>, r: Receipt, gate: Gate, now: int): (Run, Option<Message>) {
    var cancelled := Cancel(r);
    var output := if run.output == "" && assistant.Some? then assistant.value.content else run.output;
    var authority := if r.decision == Committed then Authoritative else Rejected;
    (Run(run.agent, run.lease, WorkerRunStatus(r.decision, cancelled), true, Some(gate),
         if r.decision == Decision.Aborted && !cancelled then gate.failure else None,
         gate.baseView, output, Some(if run.completedAt.Some? then run.completedAt.value else now)),
     if assistant.Some? then Some(assistant.value.(authority := authority, viewId := r.viewId, proposal := gate.proposal))
     else if output != "" then Some(Message(output, authority, r.viewId, gate.proposal))
     else None)
  }

  lemma ProjectedHasNoGap(run: Run, assistant: Option<Message>, r: Receipt, gate: Gate, now: int)
    requires gate.decision == r.decision && gate.nextView == r.viewId && gate.nextGeneration == r.generation
    ensures !Gap(ProjectRun(run, assistant, r, gate, now).0, r)
  {
  }

  /** Projecting a projected run again changes nothing, at any later time. */
  lemma ProjectTwice(run: Run, assistant: Option<Message>, facts: Facts, t: Transition, r: Receipt, health: Option<PolicyId>,
                     now: int, later: int)
    requires Summary(run, facts, t, r, health).Success?
    ensures var gate := Summary(run, facts, t, r, health).value;
            var (once, message) := ProjectRun(run, assistant, r, gate, now);
            && Summary(once, facts, t, r, health) == Success(gate)
            && ProjectRun(once, message, r, gate, later) == (once, message)
            && !Gap(once, r)
  {
    var gate := Summary(run, facts, t, r, health).value;
    ProjectedHasNoGap(run, assistant, r, gate, now);
  }

  // --------------------------------------------------------- all runs of one agent

  /** The latest terminal fact of each run, as a loop over the receipts finds it. */
  function Latest(facts: Facts, receipts: seq<Receipt>): map<string, Receipt> {
    if receipts == [] then map[]
    else
      var before, r := Latest(facts, receipts[..|receipts| - 1]), receipts[|receipts| - 1];
      if r.transition !in facts.transitions || facts.transitions[r.transition].run.None? then before
      else
        var run := facts.transitions[r.transition].run.value;
        if run !in before || before[run].sequence < r.sequence then before[run := r] else before
  }

  lemma {:induction false} LatestIsFact(facts: Facts, receipts: seq<Receipt>)
    ensures forall run <- Latest(facts, receipts) ::
              var r := Latest(facts, receipts)[run];
              r in receipts && r.transition in facts.transitions && facts.transitions[r.transition].run == Some(run)
  {
    if receipts != [] { LatestIsFact(facts, receipts[..|receipts| - 1]); }
  }

  /** The fact belongs to this agent's run and to its present admission. */
  predicate Applies(runs: map<string, Run>, agent: string, facts: Facts, run: string, r: Receipt) {
    && run in runs && runs[run].agent == agent && r.transition in facts.transitions
    && (facts.transitions[r.transition].lease in {None, Some(""), Some(runs[run].lease)})
  }

  datatype Recovered = Recovered(receipt: Receipt, lease: Option<string>)
  datatype Rows = Rows(runs: map<string, Run>, assistants: map<string, Message>, recovered: Option<Recovered>)

  function WithMessage(assistants: map<string, Message>, run: string, m: Option<Message>): map<string, Message> {
    if m.Some? then assistants[run := m.value] else assistants
  }

  /** One run of the projection loop. */
  function ProjectOne(rows: Rows, agent: string, facts: Facts, health: Option<PolicyId>, now: int, run: string, r: Receipt)
    : Result<Rows, ProjectionError>
  {
    if !Applies(rows.runs, agent, facts, run, r) then Success(rows)
    else
      var t, row := facts.transitions[r.transition], rows.runs[run];
      var gate := Summary(row, facts, t, r, health);
      if gate.Failure? then Failure(gate.error)
      else
        var (next, message) := ProjectRun(row, GetIn(rows.assistants, Some(run)), r, gate.value, now);
        Success(Rows(
          rows.runs[run := next], WithMessage(rows.assistants, run, message),
          if Gap(row, r) && (rows.recovered.None? || rows.recovered.value.receipt.sequence < r.sequence)
          then Some(Recovered(r, t.lease)) else rows.recovered))
  }

  function ProjectAll(rows: Rows, agent: string, facts: Facts, health: Option<PolicyId>, now: int,
                      order: seq<string>, latest: map<string, Receipt>): Result<Rows, ProjectionError>
    requires forall run <- order :: run in latest
  {
    if order == [] then Success(rows)
    else
      var before := ProjectAll(rows, agent, facts, health, now, order[..|order| - 1], latest);
      var run := order[|order| - 1];
      if before.Failure? then before else ProjectOne(before.value, agent, facts, health, now, run, latest[run])
  }

  // -------------------------------------------------------------- the agent's row

  predicate Active(runs: map<string, Run>, agent: string) {
    exists run <- runs :: runs[run].agent == agent && runs[run].status in {Queued, Running}
  }

  predicate OwnsLease(a: AgentRow, r: Recovered) { a.lease.None? || a.lease == r.lease }

  predicate EndedInError(r: Recovered) { r.receipt.decision == Decision.Aborted && !Cancel(r.receipt) }

  /** The row of the agent once its head and its runs have been projected. */
  function ProjectAgent(a: AgentRow, agent: string, facts: Facts, rows: Rows, now: int): AgentRow {
    var moved := a.(view := facts.head, recoveryRequired := false);
    match rows.recovered
    case None =>
      if a.status == Busy && !Active(rows.runs, agent) then
        var ready := moved.(status := Ready, lease := None, lastError := None, updatedAt := now);
        if a.view.viewId != facts.head.viewId then ready.(thread := None, needsReconciliation := true) else ready
      else moved
    case Some(r) =>
      if !OwnsLease(a, r) then moved
      else
        moved.(status := if a.status == Stopped then Stopped else if EndedInError(r) then Error else Ready,
               lease := None, thread := None, needsReconciliation := true,
               lastError := if EndedInError(r) then Some("infra_errored") else None, updatedAt := now)
  }

  // --------------------------------------------------------------- version rows

  function Find(rows: seq<VersionRow>, id: string): Option<VersionRow> {
    if rows == [] then None
    else if rows[|rows| - 1].id == id then Some(rows[|rows| - 1])
    else Find(rows[..|rows| - 1], id)
  }

  function CarriedOver(existing: seq<VersionRow>, id: string, now: int): Carried {
    match Find(existing, id)
    case Some(row) => row.carried
    case None => Carried("worker-authority", [], now)
  }

  function VersionRows(existing: seq<VersionRow>, facts: seq<FactVersion>, now: int): seq<VersionRow> {
    seq(|facts|, i requires 0 <= i < |facts| =>
      VersionRow(facts[i].id, i + 1, if i == 0 then None else Some(facts[i - 1].id), facts[i].snapshot,
                 facts[i].generation, facts[i].viewId, CarriedOver(existing, facts[i].id, now)))
  }

  lemma {:induction false} FindCarried(rows: seq<VersionRow>, id: string, c: Carried)
    requires exists row <- rows :: row.id == id
    requires forall row <- rows :: row.id == id ==> row.carried == c
    ensures Find(rows, id).Some? && Find(rows, id).value.carried == c
  {
    var init := rows[..|rows| - 1];
    if rows[|rows| - 1].id != id {
      var row :| row in rows && row.id == id;
      assert row in init;
      FindCarried(init, id, c);
    } else {
      assert rows[|rows| - 1] in rows;
    }
  }

  lemma VersionRowsTwice(existing: seq<VersionRow>, facts: seq<FactVersion>, now: int, later: int)
    ensures VersionRows(VersionRows(existing, facts, now), facts, later) == VersionRows(existing, facts, now)
  {
    var rows := VersionRows(existing, facts, now);
    forall i | 0 <= i < |facts| ensures CarriedOver(rows, facts[i].id, later) == rows[i].carried {
      assert rows[i] in rows;
      FindCarried(rows, facts[i].id, rows[i].carried);
    }
  }

  // ------------------------------------------------------- what the loop has done

  ghost predicate Distinct(order: seq<string>) { forall i, k :: 0 <= i < k < |order| ==> order[i] != order[k] }

  /** Where one run stands after its terminal fact has been projected onto `before`. */
  ghost predicate Projected(before: Rows, after: Rows, agent: string, facts: Facts, health: Option<PolicyId>, now: int,
                            run: string, r: Receipt)
    requires Applies(before.runs, agent, facts, run, r)
  {
    var gate := Summary(before.runs[run], facts, facts.transitions[r.transition], r, health);
    && gate.Success? && run in after.runs
    && (after.runs[run], GetIn(after.assistants, Some(run)))
       == ProjectRun(before.runs[run], GetIn(before.assistants, Some(run)), r, gate.value, now)
  }

  ghost predicate SameRun(before: Rows, after: Rows, run: string) {
    && (run in after.runs <==> run in before.runs) && (run in before.runs ==> after.runs[run] == before.runs[run])
    && GetIn(after.assistants, Some(run)) == GetIn(before.assistants, Some(run))
  }

  lemma OneAt(rows: Rows, agent: string, facts: Facts, health: Option<PolicyId>, now: int, run: string, r: Receipt, other: string)
    requires ProjectOne(rows, agent, facts, health, now, run, r).Success?
    ensures var after := ProjectOne(rows, agent, facts, health, now, run, r).value;
            if other == run && Applies(rows.runs, agent, facts, run, r)
            then Projected(rows, after, agent, facts, health, now, run, r)
            else SameRun(rows, after, other)
  {
  }

  /** Runs the loop does not project are untouched; the others are projected from their
      original rows, whatever the order. */
  lemma {:induction false} AllAt(rows: Rows, agent: string, facts: Facts, health: Option<PolicyId>, now: int,
                                 order: seq<string>, latest: map<string, Receipt>, run: string)
    requires (forall k <- order :: k in latest) && Distinct(order)
    requires ProjectAll(rows, agent, facts, health, now, order, latest).Success?
    ensures var after := ProjectAll(rows, agent, facts, health, now, order, latest).value;
            if run in order && Applies(rows.runs, agent, facts, run, latest[run])
            then Projected(rows, after, agent, facts, health, now, run, latest[run])
            else SameRun(rows, after, run)
  {
    hide Summary, ProjectRun, ProjectOne;
    if order != [] {
      var init, last := order[..|order| - 1], order[|order| - 1];
      assert order == init + [last];
      AllAt(rows, agent, facts, health, now, init, latest, run);
      var before := ProjectAll(rows, agent, facts, health, now, init, latest).value;
      OneAt(before, agent, facts, health, now, last, latest[last], run);
    }
  }

  lemma ProjectedAgain(before: Rows, rows: Rows, agent: string, facts: Facts, health: Option<PolicyId>, now: int, later: int,
                       run: string, r: Receipt)
    requires Applies(before.runs, agent, facts, run, r) && Projected(before, rows, agent, facts, health, now, run, r)
    ensures Applies(rows.runs, agent, facts, run, r)
    ensures ProjectOne(rows, agent, facts, health, later, run, r) == Success(rows) && !Gap(rows.runs[run], r)
  {
    ProjectTwice(before.runs[run], GetIn(before.assistants, Some(run)), facts, facts.transitions[r.transition], r, health, now, later);
    hide Summary, ProjectRun, Gap;
    var message := GetIn(rows.assistants, Some(run));
    assert WithMessage(rows.assistants, run, message) == rows.assistants;
    assert rows.runs[run := rows.runs[run]] == rows.runs;
  }

  /** A second loop over projected rows, in any order and at any time, is the identity. */
  lemma {:induction false} AllAgain(before: Rows, rows: Rows, agent: string, facts: Facts, health: Option<PolicyId>, now: int, later: int,
                                    order: seq<string>, latest: map<string, Receipt>)
    requires forall k <- order :: k in latest
    requires forall k <- order ::
               if Applies(before.runs, agent, facts, k, latest[k])
               then Projected(before, rows, agent, facts, health, now, k, latest[k])
               else SameRun(before, rows, k)
    ensures ProjectAll(rows, agent, facts, health, later, order, latest) == Success(rows)
  {
    hide Projected;
    if order != [] {
      var init, last := order[..|order| - 1], order[|order| - 1];
      assert order == init + [last];
      AllAgain(before, rows, agent, facts, health, now, later, init, latest);
      assert last in order;
      if Applies(before.runs, agent, facts, last, latest[last]) {
        ProjectedAgain(before, rows, agent, facts, health, now, later, last, latest[last]);
      }
    }
  }

  // ----------------------------------------------------------- the whole projection

  ghost predicate Lists(order: seq<string>, latest: map<string, Receipt>) {
    Distinct(order) && (forall k :: k in order <==> k in latest)
  }

  function VersionsOf(p: Product, agent: string): seq<VersionRow> { if agent in p.versions then p.versions[agent] else [] }

  function Apply(p: Product, agent: string, facts: Facts, health: Option<PolicyId>, now: int, order: seq<string>)
    : Result<Product, ProjectionError>
    requires agent in p.agents && (forall k <- order :: k in Latest(facts, facts.receipts))
  {
    var rows := ProjectAll(Rows(p.runs, p.assistants, None), agent, facts, health, now, order, Latest(facts, facts.receipts));
    if rows.Failure? then Failure(rows.error)
    else
      Success(Product(p.agents[agent := ProjectAgent(p.agents[agent], agent, facts, rows.value, now)],
                      rows.value.runs, rows.value.assistants,
                      p.versions[agent := VersionRows(VersionsOf(p, agent), facts.versions, now)]))
  }

  // --------------------------------------------------- which fact is recovered last

  /** The terminal fact of run `k` is news to the product. */
  predicate News(runs: map<string, Run>, agent: string, facts: Facts, latest: map<string, Receipt>, k: string) {
    k in latest && Applies(runs, agent, facts, k, latest[k]) && Gap(runs[k], latest[k])
  }

  /** The newest news: the first in the order among those of the greatest sequence. */
  ghost predicate Newest(runs: map<string, Run>, agent: string, facts: Facts, latest: map<string, Receipt>,
                         order: seq<string>, i: nat)
  {
    && i < |order| && News(runs, agent, facts, latest, order[i])
    && (forall k | 0 <= k < i && News(runs, agent, facts, latest, order[k]) ::
          latest[order[k]].sequence < latest[order[i]].sequence)
    && (forall k | i < k < |order| && News(runs, agent, facts, latest, order[k]) ::
          latest[order[k]].sequence <= latest[order[i]].sequence)
  }

  function LeaseOf(facts: Facts, r: Receipt): Option<string> {
    if r.transition in facts.transitions then facts.transitions[r.transition].lease else None
  }

  ghost predicate RecoversNewest(start: Rows, after: Rows, agent: string, facts: Facts, order: seq<string>,
                                 latest: map<string, Receipt>)
  {
    if after.recovered.None? then forall k <- order :: !News(start.runs, agent, facts, latest, k)
    else exists i: nat ::
           Newest(start.runs, agent, facts, latest, order, i) &&
           after.recovered.value == Recovered(latest[order[i]], LeaseOf(facts, latest[order[i]]))
  }

  lemma RecoversNext(start: Rows, before: Rows, after: Rows, agent: string, facts: Facts, init: seq<string>, last: string,
                     latest: map<string, Receipt>)
    requires RecoversNewest(start, before, agent, facts, init, latest) && last in latest && (forall k <- init :: k in latest)
    requires after.recovered ==
               if News(start.runs, agent, facts, latest, last) &&
                  (before.recovered.None? || before.recovered.value.receipt.sequence < latest[last].sequence)
               then Some(Recovered(latest[last], LeaseOf(facts, latest[last]))) else before.recovered
    ensures RecoversNewest(start, after, agent, facts, init + [last], latest)
  {
    hide News;
    var order := init + [last];
    if after.recovered.Some? {
      if before.recovered.Some? {
        var i: nat :| Newest(start.runs, agent, facts, latest, init, i)
          && before.recovered.value == Recovered(latest[init[i]], LeaseOf(facts, latest[init[i]]));
        assert init[i] in init;
        if after.recovered == before.recovered && !(News(start.runs, agent, facts, latest, last)
             && latest[init[i]].sequence < latest[last].sequence) {
          assert Newest(start.runs, agent, facts, latest, order, i);
        } else {
          assert Newest(start.runs, agent, facts, latest, order, |init|);
        }
      } else {
        forall k | 0 <= k < |init| ensures !News(start.runs, agent, facts, latest, order[k]) { assert init[k] in init; }
        assert Newest(start.runs, agent, facts, latest, order, |init|);
      }
    }
  }

  lemma OneRecovers(start: Rows, before: Rows, agent: string, facts: Facts, health: Option<PolicyId>, now: int,
                    run: string, latest: map<string, Receipt>)
    requires run in latest && SameRun(start, before, run)
    requires ProjectOne(before, agent, facts, health, now, run, latest[run]).Success?
    ensures ProjectOne(before, agent, facts, health, now, run, latest[run]).value.recovered ==
              if News(start.runs, agent, facts, latest, run) &&
                 (before.recovered.None? || before.recovered.value.receipt.sequence < latest[run].sequence)
              then Some(Recovered(latest[run], LeaseOf(facts, latest[run]))) else before.recovered
  {
    hide Summary, ProjectRun, Gap;
  }

  /** What the loop remembers is the newest news, judged on the rows it started from. */
  lemma {:induction false} AllRecovers(start: Rows, agent: string, facts: Facts, health: Option<PolicyId>, now: int,
                                       order: seq<string>, latest: map<string, Receipt>)
    requires start.recovered.None? && (forall k <- order :: k in latest) && Distinct(order)
    requires ProjectAll(start, agent, facts, health, now, order, latest).Success?
    ensures RecoversNewest(start, ProjectAll(start, agent, facts, health, now, order, latest).value, agent, facts, order, latest)
  {
    hide ProjectOne, News, RecoversNewest, Summary, ProjectRun;
    if order == [] {
      assert RecoversNewest(start, start, agent, facts, [], latest) by { NothingRecovered(start, agent, facts, latest); }
    } else {
      var init, last := order[..|order| - 1], order[|order| - 1];
      assert order == init + [last];
      AllRecovers(start, agent, facts, health, now, init, latest);
      AllAt(start, agent, facts, health, now, init, latest, last);
      var before := ProjectAll(start, agent, facts, health, now, init, latest).value;
      OneRecovers(start, before, agent, facts, health, now, last, latest);
      RecoversNext(start, before, ProjectOne(before, agent, facts, health, now, last, latest[last]).value, agent, facts,
                   init, last, latest);
    }
  }

  lemma NothingRecovered(start: Rows, agent: string, facts: Facts, latest: map<string, Receipt>)
    requires start.recovered.None?
    ensures RecoversNewest(start, start, agent, facts, [], latest)
  {
  }

  /** The product as it is before the projection, in the only state a repetition would
      still move: the agent is busy under an admission other than the one of the newest
      news, and no run of it is queued or running save those the facts settle. */
  ghost predicate Stranded(p: Product, agent: string, facts: Facts, order: seq<string>)
    requires agent in p.agents
  {
    var a, latest := p.agents[agent], Latest(facts, facts.receipts);
    && a.status == Busy && a.lease.Some?
    && (exists i: nat :: Newest(p.runs, agent, facts, latest, order, i) && LeaseOf(facts, latest[order[i]]) != a.lease)
    && (forall run <- p.runs :: p.runs[run].agent == agent && p.runs[run].status in {Queued, Running} ==>
          run in latest && Applies(p.runs, agent, facts, run, latest[run]))
  }

  lemma NewestIsOne(runs: map<string, Run>, agent: string, facts: Facts, latest: map<string, Receipt>, order: seq<string>,
                    i: nat, k: nat)
    requires Newest(runs, agent, facts, latest, order, i) && Newest(runs, agent, facts, latest, order, k)
    ensures i == k
  {
    hide News;
  }

  lemma ActiveAfter(p: Product, agent: string, facts: Facts, health: Option<PolicyId>, now: int, order: seq<string>)
    requires Lists(order, Latest(facts, facts.receipts))
    requires ProjectAll(Rows(p.runs, p.assistants, None), agent, facts, health, now, order, Latest(facts, facts.receipts)).Success?
    ensures var latest := Latest(facts, facts.receipts);
            Active(ProjectAll(Rows(p.runs, p.assistants, None), agent, facts, health, now, order, latest).value.runs, agent) <==>
            !(forall run <- p.runs :: p.runs[run].agent == agent && p.runs[run].status in {Queued, Running} ==>
                run in latest && Applies(p.runs, agent, facts, run, latest[run]))
  {
    var start, latest := Rows(p.runs, p.assistants, None), Latest(facts, facts.receipts);
    var after := ProjectAll(start, agent, facts, health, now, order, latest).value;
    hide ProjectAll, Latest, Summary;
    forall run: string
      ensures (run in after.runs && after.runs[run].agent == agent && after.runs[run].status in {Queued, Running}) <==>
              (run in p.runs && p.runs[run].agent == agent && p.runs[run].status in {Queued, Running} &&
               !(run in latest && Applies(p.runs, agent, facts, run, latest[run])))
    {
      AllAt(start, agent, facts, health, now, order, latest, run);
    }
  }

  lemma ForeignIsNewest(start: Rows, after: Rows, agent: string, facts: Facts, order: seq<string>, latest: map<string, Receipt>,
                        lease: Option<string>)
    requires RecoversNewest(start, after, agent, facts, order, latest) && (forall k <- order :: k in latest)
    ensures (after.recovered.Some? && after.recovered.value.lease != lease) <==>
            (exists i: nat :: Newest(start.runs, agent, facts, latest, order, i) && LeaseOf(facts, latest[order[i]]) != lease)
  {
    hide News;
    if i: nat :| Newest(start.runs, agent, facts, latest, order, i) {
      assert order[i] in order;
      if after.recovered.Some? {
        var k: nat :| Newest(start.runs, agent, facts, latest, order, k)
          && after.recovered.value == Recovered(latest[order[k]], LeaseOf(facts, latest[order[k]]));
        NewestIsOne(start.runs, agent, facts, latest, order, i, k);
      }
    }
  }

  /** Whether a projection strands the agent can be read off the product and the facts. */
  lemma StrandedIs(p: Product, agent: string, facts: Facts, health: Option<PolicyId>, now: int, order: seq<string>)
    requires agent in p.agents && Lists(order, Latest(facts, facts.receipts))
    requires ProjectAll(Rows(p.runs, p.assistants, None), agent, facts, health, now, order, Latest(facts, facts.receipts)).Success?
    ensures var a := p.agents[agent];
            var rows := ProjectAll(Rows(p.runs, p.assistants, None), agent, facts, health, now, order, Latest(facts, facts.receipts)).value;
            Stranded(p, agent, facts, order) <==>
            rows.recovered.Some? && !OwnsLease(a, rows.recovered.value) && a.status == Busy && !Active(rows.runs, agent)
  {
    var start, latest := Rows(p.runs, p.assistants, None), Latest(facts, facts.receipts);
    AllRecovers(start, agent, facts, health, now, order, latest);
    ActiveAfter(p, agent, facts, health, now, order);
    var after := ProjectAll(start, agent, facts, health, now, order, latest).value;
    ForeignIsNewest(start, after, agent, facts, order, latest, p.agents[agent].lease);
    hide ProjectAll, Latest, Newest, News, Active, Applies, RecoversNewest;
  }

  lemma AgentAgain(a: AgentRow, agent: string, facts: Facts, rows: Rows, now: int, later: int)
    ensures var once := ProjectAgent(a, agent, facts, rows, now);
            ProjectAgent(once, agent, facts, rows.(recovered := None), later) == once <==>
            !(rows.recovered.Some? && !OwnsLease(a, rows.recovered.value) && a.status == Busy && !Active(rows.runs, agent))
  {
  }

  lemma RowsAgain(p: Product, agent: string, facts: Facts, health: Option<PolicyId>, now: int, later: int,
                  order: seq<string>, order': seq<string>)
    requires agent in p.agents && Lists(order, Latest(facts, facts.receipts)) && Lists(order', Latest(facts, facts.receipts))
    requires ProjectAll(Rows(p.runs, p.assistants, None), agent, facts, health, now, order, Latest(facts, facts.receipts)).Success?
    ensures var start, latest := Rows(p.runs, p.assistants, None), Latest(facts, facts.receipts);
            var rows := ProjectAll(start, agent, facts, health, now, order, latest).value;
            ProjectAll(rows.(recovered := None), agent, facts, health, later, order', latest) == Success(rows.(recovered := None))
  {
    var start, latest := Rows(p.runs, p.assistants, None), Latest(facts, facts.receipts);
    var rows := ProjectAll(start, agent, facts, health, now, order, latest).value;
    var cleared := rows.(recovered := None);
    hide ProjectAll, Latest;
    forall k <- order'
      ensures if Applies(start.runs, agent, facts, k, latest[k])
              then Projected(start, cleared, agent, facts, health, now, k, latest[k]) else SameRun(start, cleared, k)
    {
      AllAt(start, agent, facts, health, now, order, latest, k);
    }
    AllAgain(start, cleared, agent, facts, health, now, later, order', latest);
  }

  /** Applying the same facts again, in any order and at any later time, changes nothing,
      exactly unless the product and the facts strand the agent. */
  lemma AppliesOnceIff(p: Product, agent: string, facts: Facts, health: Option<PolicyId>, now: int, later: int,
                       order: seq<string>, order': seq<string>)
    requires agent in p.agents && Lists(order, Latest(facts, facts.receipts)) && Lists(order', Latest(facts, facts.receipts))
    requires Apply(p, agent, facts, health, now, order).Success?
    ensures var once := Apply(p, agent, facts, health, now, order).value;
            Apply(once, agent, facts, health, later, order') == Success(once) <==> !Stranded(p, agent, facts, order)
  {
    var latest := Latest(facts, facts.receipts);
    var rows := ProjectAll(Rows(p.runs, p.assistants, None), agent, facts, health, now, order, latest).value;
    var once := Apply(p, agent, facts, health, now, order).value;
    RowsAgain(p, agent, facts, health, now, later, order, order');
    VersionRowsTwice(VersionsOf(p, agent), facts.versions, now, later);
    AgentAgain(p.agents[agent], agent, facts, rows, now, later);
    StrandedIs(p, agent, facts, health, now, order);
    hide Stranded, ProjectAll, ProjectAgent, VersionRows, Latest;
    assert VersionsOf(once, agent) == VersionRows(VersionsOf(p, agent), facts.versions, now);
    assert Rows(once.runs, once.assistants, None) == rows.(recovered := None);
    var twice := Apply(once, agent, facts, health, later, order').value;
    assert twice.versions == once.versions && twice.runs == once.runs && twice.assistants == once.assistants;
    assert twice.agents == once.agents <==> twice.agents[agent] == once.agents[agent];
  }

  /** One terminal fact about run `r` under lease `own`, while the agent is busy under another. */
  function LoneFact(head: HeadView, own: string): Facts {
    Facts(head, [], map["t" := Transition(Some("r"), Some(own), Some(head.viewId), 0, false, None, None)],
          [Receipt("t", 1, Quarantined, head.viewId, head.generation, [])], map[], map[], {})
  }

  function ForeignLease(head: HeadView, own: string, other: string): Product {
    Product(map["a" := AgentRow(head, Busy, Some(other), None, false, None, false, 0)],
            map["r" := Run("a", own, Running, false, None, None, head.viewId, "", None)], map[], map[])
  }

  lemma LoneFactIsLatest(head: HeadView, own: string)
    ensures var facts := LoneFact(head, own);
            Latest(facts, facts.receipts) == map["r" := facts.receipts[0]] && Lists(["r"], Latest(facts, facts.receipts))
  {
    var facts := LoneFact(head, own);
    assert facts.receipts[..0] == [];
    assert Latest(facts, []) == map[];
  }

  /** A stranded agent: the first projection settles the run and leaves the agent busy,
      the second sets it free. */
  lemma StrandedAgentMoves(head: HeadView, own: string, other: string, policy: PolicyId, now: int, later: int)
    requires own != other && own != ""
    ensures var p, facts := ForeignLease(head, own, other), LoneFact(head, own);
            && Lists(["r"], Latest(facts, facts.receipts)) && Stranded(p, "a", facts, ["r"])
            && var once := Apply(p, "a", facts, Some(policy), now, ["r"]);
            && once.Success? && Apply(once.value, "a", facts, Some(policy), later, ["r"]) != once
  {
    var p, facts := ForeignLease(head, own, other), LoneFact(head, own);
    var latest := Latest(facts, facts.receipts);
    LoneFactIsLatest(head, own);
    assert Applies(p.runs, "a", facts, "r", latest["r"]) && Gap(p.runs["r"], latest["r"]);
    assert Newest(p.runs, "a", facts, latest, ["r"], 0) && LeaseOf(facts, latest["r"]) == Some(own);
    assert Stranded(p, "a", facts, ["r"]);
    var start := Rows(p.runs, p.assistants, None);
    assert ["r"][..0] == [] && ProjectAll(start, "a", facts, Some(policy), now, [], latest) == Success(start);
    assert ProjectOne(start, "a", facts, Some(policy), now, "r", latest["r"]).Success?;
    assert ProjectAll(start, "a", facts, Some(policy), now, ["r"], latest).Success?;
    hide Stranded, Newest, ProjectAll, Latest, LoneFact, ForeignLease;
    AppliesOnceIff(p, "a", facts, Some(policy), now, later, ["r"], ["r"]);
  }

  /** Startup clears every lease, so there the projection is idempotent. */
  lemma IdempotentAfterLoad(p: Product, agent: string, facts: Facts, health: Option<PolicyId>, now: int, later: int,
                            order: seq<string>, order': seq<string>)
    requires agent in p.agents && p.agents[agent].lease.None?
    requires Lists(order, Latest(facts, facts.receipts)) && Lists(order', Latest(facts, facts.receipts))
    requires Apply(p, agent, facts, health, now, order).Success?
    ensures var once := Apply(p, agent, facts, health, now, order).value;
            Apply(once, agent, facts, health, later, order') == Success(once)
  {
    hide Apply, Latest;
    AppliesOnceIff(p, agent, facts, health, now, later, order, order');
  }

  // ------------------------------------------------------- what the product then says

  predicate Counts(runs: map<string, Run>, agent: string, facts: Facts, r: Receipt) {
    && r.transition in facts.transitions && facts.transitions[r.transition].run.Some?
    && var t := facts.transitions[r.transition];
       t.run.value in runs && runs[t.run.value].agent == agent && t.lease in {None, Some(runs[t.run.value].lease)}
  }

  predicate HasGap(runs: map<string, Run>, agent: string, facts: Facts, r: Receipt) {
    Counts(runs, agent, facts, r) && Gap(runs[facts.transitions[r.transition].run.value], r)
  }

  /** The latest terminal fact the product does not reflect. */
  method LatestWorkerTerminalProjectionGap(runs: map<string, Run>, agent: string, facts: Facts) returns (latest: Option<Receipt>)
    ensures latest.None? <==> forall r <- facts.receipts :: !HasGap(runs, agent, facts, r)
    ensures latest.Some? ==>
              && latest.value in facts.receipts && HasGap(runs, agent, facts, latest.value)
              && forall r <- facts.receipts :: HasGap(runs, agent, facts, r) ==> r.sequence <= latest.value.sequence
  {
    latest := None;
    for n := 0 to |facts.receipts|
      invariant latest.None? <==> forall r <- facts.receipts[..n] :: !HasGap(runs, agent, facts, r)
      invariant latest.Some? ==>
                  && latest.value in facts.receipts[..n] && HasGap(runs, agent, facts, latest.value)
                  && forall r <- facts.receipts[..n] :: HasGap(runs, agent, facts, r) ==> r.sequence <= latest.value.sequence
    {
      var r := facts.receipts[n];
      assert facts.receipts[..n + 1] == facts.receipts[..n] + [r];
      if HasGap(runs, agent, facts, r) && (latest.None? || latest.value.sequence < r.sequence) {
        latest := Some(r);
      }
    }
    assert facts.receipts[..|facts.receipts|] == facts.receipts;
  }

  predicate RunOf(facts: Facts, r: Receipt, run: string) {
    r.transition in facts.transitions && facts.transitions[r.transition].run == Some(run)
  }

  /** The Worker records one terminal fact per run. */
  ghost predicate OneFactPerRun(facts: Facts, receipts: seq<Receipt>) {
    forall r <- receipts, q <- receipts, run: string :: RunOf(facts, r, run) && RunOf(facts, q, run) ==> r == q
  }

  lemma {:induction false} LatestIsTheFact(facts: Facts, receipts: seq<Receipt>, r: Receipt, run: string)
    requires OneFactPerRun(facts, receipts) && r in receipts && RunOf(facts, r, run)
    ensures run in Latest(facts, receipts) && Latest(facts, receipts)[run] == r
  {
    var init, last := receipts[..|receipts| - 1], receipts[|receipts| - 1];
    assert receipts == init + [last] && last in receipts;
    LatestIsFact(facts, init);
    forall q <- init ensures q in receipts {}
    if r in init {
      LatestIsTheFact(facts, init, r, run);
    } else {
      assert run in Latest(facts, init) ==> RunOf(facts, Latest(facts, init)[run], run);
    }
  }

  /** With one terminal fact per run, nothing is left unreflected by a projection. */
  lemma NoGapAfter(p: Product, agent: string, facts: Facts, health: Option<PolicyId>, now: int, order: seq<string>, r: Receipt)
    requires agent in p.agents && Lists(order, Latest(facts, facts.receipts))
    requires Apply(p, agent, facts, health, now, order).Success?
    requires OneFactPerRun(facts, facts.receipts) && r in facts.receipts
    ensures !HasGap(Apply(p, agent, facts, health, now, order).value.runs, agent, facts, r)
  {
    var after := Apply(p, agent, facts, health, now, order).value;
    if Counts(after.runs, agent, facts, r) {
      var run := facts.transitions[r.transition].run.value;
      var start, latest := Rows(p.runs, p.assistants, None), Latest(facts, facts.receipts);
      LatestIsTheFact(facts, facts.receipts, r, run);
      AllAt(start, agent, facts, health, now, order, latest, run);
      hide ProjectAll, Latest;
    }
  }

  /** After a projection the assistant message of every projected run is authoritative
      exactly when its terminal fact committed; every other run, every other agent's
      row and versions, and every run under another admission is untouched. */
  lemma AuthorityAndFrame(p: Product, agent: string, facts: Facts, health: Option<PolicyId>, now: int, order: seq<string>, run: string)
    requires agent in p.agents && Lists(order, Latest(facts, facts.receipts))
    requires Apply(p, agent, facts, health, now, order).Success?
    ensures var after, latest := Apply(p, agent, facts, health, now, order).value, Latest(facts, facts.receipts);
            && (run in latest && Applies(p.runs, agent, facts, run, latest[run]) ==>
                  && run in after.runs && after.runs[run].terminal
                  && after.runs[run].status == WorkerRunStatus(latest[run].decision, Cancel(latest[run]))
                  && (run in after.assistants ==>
                        (after.assistants[run].authority == Authoritative <==> latest[run].decision == Committed)))
            && (!(run in latest && Applies(p.runs, agent, facts, run, latest[run])) ==>
                  && (run in after.runs <==> run in p.runs) && (run in p.runs ==> after.runs[run] == p.runs[run])
                  && GetIn(after.assistants, Some(run)) == GetIn(p.assistants, Some(run)))
            && (forall other <- p.agents :: other != agent ==> other in after.agents && after.agents[other] == p.agents[other])
            && (forall other <- p.versions :: other != agent ==> other in after.versions && after.versions[other] == p.versions[other])
            && after.agents[agent].view == facts.head
  {
    AllAt(Rows(p.runs, p.assistants, None), agent, facts, health, now, order, Latest(facts, facts.receipts), run);
    hide ProjectAll, Latest;
  }

  // ---------------------------------------------------------------- the database

  class Database {
    var agents: map<string, AgentRow>
    var runs: map<string, Run>
    var assistants: map<string, Message>
    var versions: map<string, seq<VersionRow>>

    function Contents(): Product
      reads this
    {
      Product(agents, runs, assistants, versions)
    }

    /** Keyed by run, the later of two facts wins; the keys keep their first position. */
    method LatestByRun(facts: Facts) returns (latest: map<string, Receipt>, order: seq<string>)
      ensures latest == Latest(facts, facts.receipts) && Lists(order, latest)
    {
      latest, order := map[], [];
      for n := 0 to |facts.receipts|
        invariant latest == Latest(facts, facts.receipts[..n]) && Lists(order, latest)
      {
        var r := facts.receipts[n];
        assert facts.receipts[..n + 1][..n] == facts.receipts[..n];
        if r.transition in facts.transitions && facts.transitions[r.transition].run.Some? {
          var run := facts.transitions[r.transition].run.value;
          if run !in latest {
            latest, order := latest[run := r], order + [run];
          } else if latest[run].sequence < r.sequence {
            latest := latest[run := r];
          }
        }
      }
      assert facts.receipts[..|facts.receipts|] == facts.receipts;
    }

    /** The loop over the runs works on the store's copy: an error leaves the database as it was. */
    method ApplyWorkerAuthorityProjection(agent: string, facts: Facts, health: Option<PolicyId>, now: int)
      returns (r: Result<(), ProjectionError>, ghost order: seq<string>)
      requires agent in agents
      modifies this
      ensures Lists(order, Latest(facts, facts.receipts))
      ensures r.Success? ==> Apply(old(Contents()), agent, facts, health, now, order) == Success(Contents())
      ensures r.Failure? ==> Contents() == old(Contents()) && Apply(old(Contents()), agent, facts, health, now, order) == Failure(r.error)
    {
      hide Latest, ProjectOne, ProjectAgent, VersionRows;
      var latest, keys := LatestByRun(facts);
      order := keys;
      var rows := Rows(runs, assistants, None);
      for n := 0 to |keys|
        invariant ProjectAll(Rows(runs, assistants, None), agent, facts, health, now, keys[..n], latest) == Success(rows)
      {
        assert keys[..n + 1][..n] == keys[..n];
        var next := ProjectOne(rows, agent, facts, health, now, keys[n], latest[keys[n]]);
        if next.Failure? {
          FailureStays(Rows(runs, assistants, None), agent, facts, health, now, keys, n + 1, latest);
          return Failure(next.error), order;
        }
        rows := next.value;
      }
      assert keys[..|keys|] == keys;
      agents := agents[agent := ProjectAgent(agents[agent], agent, facts, rows, now)];
      versions := versions[agent := VersionRows(if agent in versions then versions[agent] else [], facts.versions, now)];
      runs, assistants := rows.runs, rows.assistants;
      r := Success(());
    }
  }

  lemma {:induction false} FailureStays(rows: Rows, agent: string, facts: Facts, health: Option<PolicyId>, now: int,
                                        order: seq<string>, n: nat, latest: map<string, Receipt>)
    requires n <= |order| && (forall run <- order :: run in latest)
    requires ProjectAll(rows, agent, facts, health, now, order[..n], latest).Failure?
    ensures ProjectAll(rows, agent, facts, health, now, order, latest) == ProjectAll(rows, agent, facts, health, now, order[..n], latest)
  {
    hide ProjectOne;
    if n == |order| {
      assert order[..n] == order;
    } else {
      var init := order[..|order| - 1];
      assert init[..n] == order[..n];
      FailureStays(rows, agent, facts, health, now, init, n, latest);
    }
  }
}
