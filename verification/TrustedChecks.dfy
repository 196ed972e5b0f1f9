/**
 Three implementations of one verdict over trusted-check results: the coordinator's
 loop, the runner's coverage test, and the Worker's contract.
 */
module TrustedChecks {
  import opened Wrappers

  datatype Status = PASS | FAIL | ERROR | SKIPPED
  datatype Check = Check(id: string, status: Status, exitCode: Option<int>, timedOut: bool)
  datatype Failure = Unexpected(id: string) | Duplicate(id: string) | Invalid(id: string) | Incomplete(id: string) | MissingResult(id: string)

  predicate Passed(c: Check) { c.status == PASS && c.exitCode == Some(0) && !c.timedOut }

  predicate FailedCleanly(c: Check) { c.status == FAIL && c.exitCode.Some? && c.exitCode != Some(0) && !c.timedOut }

  function Ids(checks: seq<Check>): (ids: seq<string>)
    ensures |ids| == |checks| && forall i :: 0 <= i < |checks| ==> ids[i] == checks[i].id
  {
    seq(|checks|, i requires 0 <= i < |checks| => checks[i].id)
  }

  function Members(ids: seq<string>): set<string> { set id | id in ids }

  ghost predicate Distinct(ids: seq<string>) { forall i, k :: 0 <= i < k < |ids| ==> ids[i] != ids[k] }

  /** The verdict all three are meant to give: one passing result for each required id and no other result. */
  ghost predicate Satisfied(checks: seq<Check>, required: seq<string>) {
    && (forall c <- checks :: Passed(c)) && Distinct(Ids(checks)) && Members(Ids(checks)) == Members(required)
  }

  // --------------------------------------------------------------- the coordinator

  /** One usable result for each required id, and no other. */
  ghost predicate Evidence(checks: seq<Check>, required: seq<string>) {
    && (forall c <- checks :: Passed(c) || FailedCleanly(c)) && Distinct(Ids(checks))
    && Members(Ids(checks)) == Members(required)
  }

  /** The part of it that a prefix of the results can already violate. */
  ghost predicate SoFar(checks: seq<Check>, required: set<string>) {
    && (forall c <- checks :: (Passed(c) || FailedCleanly(c)) && c.id in required) && Distinct(Ids(checks))
  }

  lemma SoFarNext(checks: seq<Check>, c: Check, required: set<string>)
    ensures SoFar(checks + [c], required) <==>
              SoFar(checks, required) && (Passed(c) || FailedCleanly(c)) && c.id in required && c.id !in Ids(checks)
    ensures Ids(checks + [c]) == Ids(checks) + [c.id]
  {
    var all := checks + [c];
    assert Ids(all) == Ids(checks) + [c.id];
    if SoFar(all, required) {
      forall d <- checks ensures d in all {}
      assert all[|checks|] == c;
      assert forall i :: 0 <= i < |checks| ==> Ids(all)[i] == Ids(checks)[i];
    }
  }

  ghost predicate AllPassed(checks: seq<Check>) { forall c <- checks :: Passed(c) }

  lemma AllPassedNext(checks: seq<Check>, c: Check)
    ensures AllPassed(checks + [c]) <==> AllPassed(checks) && Passed(c)
  {
    assert c in checks + [c];
    forall d <- checks ensures d in checks + [c] {}
  }

  /** What one result adds to the evidence failures. */
  function Objection(c: Check, expected: bool, repeated: bool): Option<Failure> {
    if !expected then Some(Unexpected(c.id))
    else if repeated then Some(Duplicate(c.id))
    else if c.status == PASS then (if c.exitCode != Some(0) || c.timedOut then Some(Invalid(c.id)) else None)
    else if c.status == FAIL then
      if c.exitCode.None? || c.exitCode == Some(0) || c.timedOut then Some(Invalid(c.id)) else None
    else Some(Incomplete(c.id))
  }

  lemma ObjectionIs(c: Check, expected: bool, repeated: bool)
    ensures Objection(c, expected, repeated).None? <==> expected && !repeated && (Passed(c) || FailedCleanly(c))
    ensures Objection(c, expected, repeated).None? ==> (Passed(c) <==> c.status == PASS)
  {
  }

  method AssessTrustedChecks(checks: seq<Check>, required: seq<string>)
    returns (evidenceFailures: seq<Failure>, resultFailures: seq<string>)
    ensures evidenceFailures == [] <==> Evidence(checks, required)
    ensures evidenceFailures == [] ==> (resultFailures == [] <==> Satisfied(checks, required))
  {
    hide Passed, FailedCleanly, SoFar, Objection;
    var requiredIds := Members(required);
    var seen: map<string, nat> := map[];
    evidenceFailures, resultFailures := [], [];
    NothingYet(requiredIds);
    for n := 0 to |checks|
      invariant forall id :: id in seen <==> id in Ids(checks[..n])
      invariant forall id <- seen :: seen[id] >= 1
      invariant evidenceFailures == [] <==> SoFar(checks[..n], requiredIds)
      invariant evidenceFailures == [] ==> (resultFailures == [] <==> AllPassed(checks[..n]))
    {
      var check := checks[n];
      assert checks[..n + 1] == checks[..n] + [check];
      SoFarNext(checks[..n], check, requiredIds);
      AllPassedNext(checks[..n], check);
      seen := seen[check.id := (if check.id in seen then seen[check.id] else 0) + 1];
      assert seen[check.id] > 1 <==> check.id in Ids(checks[..n]);
      var objection := Objection(check, check.id in requiredIds, seen[check.id] > 1);
      ObjectionIs(check, check.id in requiredIds, seen[check.id] > 1);
      if objection.Some? {
        evidenceFailures := evidenceFailures + [objection.value];
      } else if check.status != PASS {
        resultFailures := resultFailures + [check.id];
      }
    }
    assert checks[..|checks|] == checks;
    ghost var before := evidenceFailures;
    var todo := requiredIds;
    while todo != {}
      invariant todo <= requiredIds
      invariant evidenceFailures == [] <==> before == [] && forall id <- requiredIds - todo :: id in seen
      decreases |todo|
    {
      var id :| id in todo;
      if id !in seen { evidenceFailures := evidenceFailures + [MissingResult(id)]; }
      todo := todo - {id};
    }
    EvidenceIs(checks, required);
  }

  lemma NothingYet(required: set<string>)
    ensures SoFar([], required) && AllPassed([])
  {
  }

  lemma EvidenceIs(checks: seq<Check>, required: seq<string>)
    ensures Evidence(checks, required) <==>
              SoFar(checks, Members(required)) && forall id <- Members(required) :: id in Ids(checks)
  {
    forall c <- checks ensures c.id in Members(Ids(checks)) {
      var i :| 0 <= i < |checks| && checks[i] == c;
      assert Ids(checks)[i] == c.id;
    }
  }

  // --------------------------------------------------------------------- the runner

  predicate RunnerCoverage(checks: seq<Check>, required: seq<string>) {
    var expected, observed := Members(required), Members(Ids(checks));
    |checks| == |required| && |observed| == |expected| && expected <= observed
  }

  predicate RunnerPasses(checks: seq<Check>, required: seq<string>) {
    RunnerCoverage(checks, required) && forall c <- checks :: Passed(c)
  }

  // --------------------------------------------------------------------- the Worker

  datatype ContractFailure = CoverageIncomplete | SetMismatch | CheckFailed

  /** The check part of the contract; the claimed verdict is compared, never trusted. */
  function ValidateWorkerEvidence(checks: seq<Check>, required: seq<string>, coverage: bool, claimed: bool): Option<ContractFailure> {
    var observed := Members(Ids(checks));
    var passed := forall c <- checks :: Passed(c);
    if !coverage then Some(CoverageIncomplete)
    else if |checks| != |required| || |observed| != |checks| || exists id <- required :: id !in observed then Some(SetMismatch)
    else if !passed || claimed != passed then Some(CheckFailed)
    else None
  }

  // ------------------------------------------------------------------ one verdict

  lemma {:induction false} DistinctIffSize(ids: seq<string>)
    ensures |Members(ids)| <= |ids|
    ensures |Members(ids)| == |ids| <==> Distinct(ids)
  {
    if ids != [] {
      var init, last := ids[..|ids| - 1], ids[|ids| - 1];
      DistinctIffSize(init);
      assert ids == init + [last];
      assert Members(ids) == Members(init) + {last};
      if last in init {
        var i :| 0 <= i < |init| && init[i] == last;
        assert ids[i] == ids[|ids| - 1];
      } else {
        assert Distinct(init) ==> Distinct(ids);
        assert Distinct(ids) ==> Distinct(init);
      }
    }
  }

  lemma SameSize(a: set<string>, b: set<string>)
    requires a <= b && |a| == |b|
    ensures a == b
  {
    assert |b - a| == 0;
  }

  /** For distinct required ids the runner's test is the intended verdict. */
  lemma RunnerDecides(checks: seq<Check>, required: seq<string>)
    requires Distinct(required)
    ensures RunnerPasses(checks, required) <==> Satisfied(checks, required)
  {
    DistinctIffSize(required);
    DistinctIffSize(Ids(checks));
    if RunnerCoverage(checks, required) { SameSize(Members(required), Members(Ids(checks))); }
  }

  /** For distinct required ids the Worker accepts a report exactly when the report claims
      coverage and success and the results earn it, whatever the runner computed. */
  lemma WorkerDecides(checks: seq<Check>, required: seq<string>)
    requires Distinct(required)
    ensures forall coverage, claimed ::
              ValidateWorkerEvidence(checks, required, coverage, claimed).None? <==>
              coverage && claimed && Satisfied(checks, required)
  {
    RunnerDecides(checks, required);
    DistinctIffSize(required);
    DistinctIffSize(Ids(checks));
    if Satisfied(checks, required) {
      forall id <- required ensures id in Members(Ids(checks)) { assert id in Members(required); }
    }
  }

  function Dedup(ids: seq<string>): seq<string> {
    if ids == [] then []
    else
      var init, last := Dedup(ids[..|ids| - 1]), ids[|ids| - 1];
      if last in init then init else init + [last]
  }

  lemma {:induction false} DedupIs(ids: seq<string>)
    ensures Distinct(Dedup(ids)) && Members(Dedup(ids)) == Members(ids)
  {
    if ids != [] {
      var init, last := ids[..|ids| - 1], ids[|ids| - 1];
      DedupIs(init);
      assert ids == init + [last];
      assert Members(ids) == Members(init) + {last};
      assert last in Dedup(init) <==> last in Members(Dedup(init));
    }
  }

  /** The Worker accepts a report of complete coverage and success over these results. */
  predicate WorkerAccepts(checks: seq<Check>, required: seq<string>) {
    ValidateWorkerEvidence(checks, required, true, true).None?
  }

  /** The three deciders agree with one another, and with the intended verdict, on every
      list of results if and only if the required ids are distinct. */
  lemma DecidersAgreeIff(required: seq<string>)
    ensures (forall checks: seq<Check> ::
               (Satisfied(checks, required) <==> RunnerPasses(checks, required)) &&
               (RunnerPasses(checks, required) <==> WorkerAccepts(checks, required)))
            <==> Distinct(required)
  {
    if Distinct(required) {
      forall checks: seq<Check>
        ensures Satisfied(checks, required) <==> RunnerPasses(checks, required)
        ensures RunnerPasses(checks, required) <==> WorkerAccepts(checks, required)
      {
        RunnerDecides(checks, required);
        WorkerDecides(checks, required);
      }
    } else {
      var once := OnePerId(required);
      assert !(Satisfied(once, required) <==> RunnerPasses(once, required));
    }
  }

  /** With a repeated required id, one passing result per id satisfies the coordinator and not the runner. */
  lemma OnePerId(required: seq<string>) returns (checks: seq<Check>)
    requires !Distinct(required)
    ensures Satisfied(checks, required) && !RunnerPasses(checks, required)
  {
    var ids := Dedup(required);
    DedupIs(required);
    DistinctIffSize(required);
    DistinctIffSize(ids);
    checks := seq(|ids|, i requires 0 <= i < |ids| => Check(ids[i], PASS, Some(0), false));
    assert Ids(checks) == ids;
  }

  /** The verdict does not depend on the order in which results arrive. */
  lemma OrderIrrelevant(checks: seq<Check>, shuffled: seq<Check>, required: seq<string>)
    requires multiset(checks) == multiset(shuffled)
    ensures Satisfied(checks, required) <==> Satisfied(shuffled, required)
  {
    assert |checks| == |multiset(checks)| == |shuffled|;
    SameIds(checks, shuffled);
    DistinctIffSize(Ids(checks));
    DistinctIffSize(Ids(shuffled));
    forall c ensures c in checks <==> c in shuffled { assert c in multiset(checks) <==> c in multiset(shuffled); }
  }

  lemma SameIds(checks: seq<Check>, shuffled: seq<Check>)
    requires multiset(checks) == multiset(shuffled)
    ensures Members(Ids(checks)) == Members(Ids(shuffled))
  {
    IdsWithin(checks, shuffled);
    IdsWithin(shuffled, checks);
  }

  lemma IdsWithin(checks: seq<Check>, shuffled: seq<Check>)
    requires multiset(checks) == multiset(shuffled)
    ensures Members(Ids(checks)) <= Members(Ids(shuffled))
  {
    forall id <- Members(Ids(checks)) ensures id in Members(Ids(shuffled)) {
      var i :| 0 <= i < |checks| && Ids(checks)[i] == id;
      assert checks[i] in multiset(shuffled);
      var k :| 0 <= k < |shuffled| && shuffled[k] == checks[i];
      assert Ids(shuffled)[k] == id;
    }
  }
}
