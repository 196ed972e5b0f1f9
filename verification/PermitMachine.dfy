/**
 One stored permit under any number of store instances.  Each call of the permit
 store reads the permit file, decides, and writes; the instances interleave at
 these steps and may be killed at any of them.  Calls of one instance are queued,
 so an instance has at most one unfinished call.  The rollback permits follow the
 same machine.
 */
module PermitMachine {
  import opened Wrappers
  import opened Protocol

  /** The next durable action of an instance's unfinished call. */
  datatype Pending = NoCall | OpenClaim | WriteConsuming | WriteConsumed(byCapability: bool) | WriteRevoked

  /** A store instance in one process, with the capability it may have handed out. */
  datatype Instance = Instance(pending: Pending, holds: bool, spent: bool)

  datatype State = State(
    file: PermitState,              // the permit file
    claimant: Option<nat>,          // the instance that created the claim file
    running: map<nat, Instance>,
    started: set<nat>,              // every instance that ever ran
    capabilities: nat,              // capabilities handed out so far, over all instances
    consumptions: nat)              // calls of `consume` that returned, over all capabilities

  datatype Op =
    | Start(i: nat)
    | Kill(i: nat)
    | BeginClaim(i: nat, expired: bool)
    | BeginConsume(i: nat)
    | BeginMark(i: nat)
    | BeginRevoke(i: nat)
    | Continue(i: nat)

  const FRESH := Instance(NoCall, false, false)

  function Issue(): State { State(Issued, None, map[], {}, 0, 0) }

  function Await(s: State, i: nat, p: Pending): State
    requires i in s.running
  {
    s.(running := s.running[i := s.running[i].(pending := p)])
  }

  /** The durable action of an unfinished call; the call then returns or goes on. */
  function Act(s: State, i: nat): State
    requires i in s.running
  {
    var me := s.running[i];
    match me.pending
    case NoCall => s
    case OpenClaim =>
      if s.claimant.Some? then Await(s, i, NoCall) else Await(s, i, WriteConsuming).(claimant := Some(i))
    case WriteConsuming =>
      s.(file := Consuming, running := s.running[i := Instance(NoCall, true, false)], capabilities := s.capabilities + 1)
    case WriteConsumed(byCapability) =>
      Await(s, i, NoCall).(file := Consumed, consumptions := s.consumptions + if byCapability then 1 else 0)
    case WriteRevoked => Await(s, i, NoCall).(file := Revoked)
  }

  /** What one step does; a step that is not possible does nothing. */
  function Step(op: Op, s: State): State {
    if op.Start? then
      if op.i in s.started then s else s.(running := s.running[op.i := FRESH], started := s.started + {op.i})
    else if op.i !in s.running then s
    else
      var me := s.running[op.i];
      match op
      case Kill(i) => s.(running := s.running - {i})
      case Continue(i) => Act(s, i)
      case BeginClaim(i, expired) =>
        if me.pending != NoCall || s.file != Issued then s
        else Await(s, i, if expired then WriteRevoked else OpenClaim)
      case BeginConsume(i) =>
        if me.pending != NoCall || !me.holds || me.spent then s
        else
          var spent := s.(running := s.running[i := me.(spent := true)]);
          if s.file == Consuming then Await(spent, i, WriteConsumed(true)) else spent
      case BeginMark(i) =>
        if me.pending != NoCall || !me.holds || s.file != Consuming then s else Await(s, i, WriteConsumed(false))
      case BeginRevoke(i) =>
        if me.pending != NoCall || s.file in {Revoked, Consumed} then s else Await(s, i, WriteRevoked)
  }

  function Run(ops: seq<Op>, s: State): State {
    if ops == [] then s else Step(ops[|ops| - 1], Run(ops[..|ops| - 1], s))
  }

  ghost predicate InstanceOk(s: State, i: nat)
    requires i in s.running
  {
    var me := s.running[i];
    && i in s.started
    && (me.pending == WriteConsuming ==> s.claimant == Some(i) && !me.holds && s.capabilities == 0)
    && (me.holds ==> s.claimant == Some(i) && s.capabilities == 1)
    && (me.pending.WriteConsumed? ==> me.holds)
    && (me.pending == WriteConsumed(true) ==> me.spent && s.consumptions == 0)
    && (me.holds && !me.spent ==> s.consumptions == 0)
  }

  ghost predicate Inv(s: State) {
    && s.capabilities <= 1 && s.consumptions <= s.capabilities
    && (s.claimant.None? ==> s.capabilities == 0)
    && (s.claimant.Some? ==> s.claimant.value in s.started)
    && (s.file == Consumed ==> s.capabilities == 1)
    && (forall i <- s.running :: InstanceOk(s, i))
  }

  lemma RunningStarted(s: State)
    requires Inv(s)
    ensures s.running.Keys <= s.started
  {
    forall i <- s.running ensures i in s.started { assert InstanceOk(s, i); }
  }

  lemma StepKeepsInv(op: Op, s: State)
    requires Inv(s)
    ensures Inv(Step(op, s))
  {
    var t := Step(op, s);
    forall i <- t.running ensures InstanceOk(t, i) {
      if i in s.running { assert InstanceOk(s, i); }
      if op.i in s.running { assert InstanceOk(s, op.i); }
    }
    if op.i in s.running { assert InstanceOk(s, op.i); }
  }

  lemma {:induction false} RunKeepsInv(ops: seq<Op>, s: State)
    requires Inv(s)
    ensures Inv(Run(ops, s))
  {
    hide Inv, Step;
    if ops != [] {
      RunKeepsInv(ops[..|ops| - 1], s);
      StepKeepsInv(ops[|ops| - 1], Run(ops[..|ops| - 1], s));
    }
  }

  /** At most once, over every interleaving of instances, kills and restarts: one
      capability, one successful consume; and the swap it authorises begins only
      after the permit file has been written CONSUMED. */
  lemma AtMostOnce(ops: seq<Op>)
    ensures Run(ops, Issue()).capabilities <= 1 && Run(ops, Issue()).consumptions <= 1
  {
    RunKeepsInv(ops, Issue());
  }

  /** Authority is granted exactly by writing CONSUMED over a claim the same instance
      made: the step that makes `consume` return is the durable write itself. */
  lemma ConsumeIsDurable(ops: seq<Op>, op: Op)
    requires var s := Run(ops, Issue()); Step(op, s).consumptions > s.consumptions
    ensures var s := Run(ops, Issue());
            && Step(op, s).file == Consumed && op.Continue? && s.claimant == Some(op.i)
            && s.capabilities == 1 && s.consumptions == 0
  {
    RunKeepsInv(ops, Issue());
    var s := Run(ops, Issue());
    assert InstanceOk(s, op.i);
  }

  // -------------------------------------------- when CONSUMED stays CONSUMED

  /** Some instance read the permit while it was still live and has yet to write REVOKED. */
  ghost predicate StaleRevocation(s: State) { exists i <- s.running :: s.running[i].pending == WriteRevoked }

  lemma ConsumedStep(op: Op, s: State)
    requires Inv(s) && s.file == Consumed && !StaleRevocation(s)
    ensures Step(op, s).file == Consumed && !StaleRevocation(Step(op, s))
  {
    if op.i in s.running { assert InstanceOk(s, op.i); }
  }

  lemma {:induction false} ConsumedRun(ops: seq<Op>, s: State)
    requires Inv(s) && s.file == Consumed && !StaleRevocation(s)
    ensures Run(ops, s).file == Consumed && !StaleRevocation(Run(ops, s))
  {
    hide Inv, Step, StaleRevocation;
    if ops != [] {
      ConsumedRun(ops[..|ops| - 1], s);
      RunKeepsInv(ops[..|ops| - 1], s);
      ConsumedStep(ops[|ops| - 1], Run(ops[..|ops| - 1], s));
    }
  }

  lemma RunNext(ops: seq<Op>, op: Op, s: State)
    ensures Run(ops + [op], s) == Step(op, Run(ops, s))
  {
    assert (ops + [op])[..|ops|] == ops;
    hide Step;
  }

  /** A consumed permit stays CONSUMED on every continuation if and only if no other
      instance is about to write a stale REVOKED. */
  lemma ConsumedIsFinalIff(s: State)
    requires Inv(s) && s.file == Consumed
    ensures (forall ops: seq<Op> :: Run(ops, s).file == Consumed) <==> !StaleRevocation(s)
  {
    if StaleRevocation(s) {
      var ops := StaleWrite(s);
      assert Run(ops, s).file != Consumed;
    } else {
      hide Run, Inv, StaleRevocation;
      forall ops: seq<Op> ensures Run(ops, s).file == Consumed { ConsumedRun(ops, s); }
    }
  }

  lemma StaleWrite(s: State) returns (ops: seq<Op>)
    requires StaleRevocation(s)
    ensures Run(ops, s).file == Revoked
  {
    var i :| i in s.running && s.running[i].pending == WriteRevoked;
    RunNext([], Continue(i), s);
    ops := [] + [Continue(i)];
  }

  const TWO_STARTED := [Start(0), Start(1)]
  const CLAIMED := TWO_STARTED + [BeginClaim(0, false)] + [Continue(0)] + [Continue(0)]
  const CONSUMED := CLAIMED + [BeginRevoke(1)] + [BeginConsume(0)] + [Continue(0)]

  lemma ClaimedState()
    ensures Run(CLAIMED, Issue()) ==
              State(Consuming, Some(0), map[0 := Instance(NoCall, true, false), 1 := FRESH], {0, 1}, 1, 0)
  {
    assert TWO_STARTED == [] + [Start(0)] + [Start(1)];
    RunNext([], Start(0), Issue());
    RunNext([] + [Start(0)], Start(1), Issue());
    RunNext(TWO_STARTED, BeginClaim(0, false), Issue());
    RunNext(TWO_STARTED + [BeginClaim(0, false)], Continue(0), Issue());
    RunNext(TWO_STARTED + [BeginClaim(0, false)] + [Continue(0)], Continue(0), Issue());
    assert Run([], Issue()) == Issue();
    hide Run;
    assert Run(TWO_STARTED, Issue()) == State(Issued, None, map[0 := FRESH, 1 := FRESH], {0, 1}, 0, 0);
  }

  /** Such a state is reachable: one instance revokes while another consumes. */
  lemma StaleRevocationHappens()
    ensures Run(CONSUMED, Issue()).file == Consumed && Run(CONSUMED, Issue()).consumptions == 1
    ensures Run(CONSUMED + [Continue(1)], Issue()).file == Revoked
  {
    ClaimedState();
    RunNext(CLAIMED, BeginRevoke(1), Issue());
    RunNext(CLAIMED + [BeginRevoke(1)], BeginConsume(0), Issue());
    RunNext(CLAIMED + [BeginRevoke(1)] + [BeginConsume(0)], Continue(0), Issue());
    RunNext(CONSUMED, Continue(1), Issue());
    hide Run;
  }

  lemma RunLast(ops: seq<Op>, k: nat)
    requires 0 < k <= |ops|
    ensures Run(ops[..k], Issue()) == Step(ops[k - 1], Run(ops[..k - 1], Issue()))
  {
    assert ops[..k][..k - 1] == ops[..k - 1];
  }

  /** A history in which a process starts only after its predecessor has died. */
  ghost predicate OneAtATime(ops: seq<Op>) {
    forall k :: 0 <= k < |ops| && ops[k].Start? ==> Run(ops[..k], Issue()).running == map[]
  }

  lemma OneAtATimePrefix(ops: seq<Op>, n: nat)
    requires OneAtATime(ops) && n <= |ops|
    ensures OneAtATime(ops[..n])
  {
    hide Run;
    var init := ops[..n];
    forall k | 0 <= k < |init| && init[k].Start? ensures Run(init[..k], Issue()).running == map[] {
      assert init[..k] == ops[..k] && init[k] == ops[k];
    }
  }

  lemma {:induction false} OneRunning(ops: seq<Op>)
    requires OneAtATime(ops)
    ensures forall i, j :: i in Run(ops, Issue()).running && j in Run(ops, Issue()).running ==> i == j
  {
    if ops != [] {
      var init, op := ops[..|ops| - 1], ops[|ops| - 1];
      OneAtATimePrefix(ops, |ops| - 1);
      OneRunning(init);
      RunningGrows(op, Run(init, Issue()));
      assert op.Start? ==> Run(init, Issue()).running == map[];
    }
  }

  lemma RunningGrows(op: Op, s: State)
    ensures Step(op, s).running.Keys <= s.running.Keys + if op.Start? then {op.i} else {}
  {
  }

  /** With one process at a time, a permit once consumed is CONSUMED for good. */
  lemma ConsumedForGood(ops: seq<Op>, k: nat)
    requires OneAtATime(ops) && k < |ops|
    requires Run(ops[..k + 1], Issue()).consumptions > Run(ops[..k], Issue()).consumptions
    ensures Run(ops, Issue()).file == Consumed
  {
    hide Run, Step, Inv, OneAtATime;
    var s, t := Run(ops[..k], Issue()), Run(ops[..k + 1], Issue());
    RunLast(ops, k + 1);
    ConsumeIsDurable(ops[..k], ops[k]);
    OneAtATimePrefix(ops, k + 1);
    OneRunning(ops[..k + 1]);
    assert Inv(Issue()) by { IssueInv(); }
    RunKeepsInv(ops[..k], Issue());
    RunKeepsInv(ops[..k + 1], Issue());
    ConsumerIsDone(s, ops[k]);
    RunSplit(ops, k + 1, Issue());
    ConsumedRun(ops[k + 1..], t);
  }

  lemma IssueInv()
    ensures Inv(Issue())
  {
  }

  lemma ConsumerIsDone(s: State, op: Op)
    requires op.Continue? && Step(op, s).consumptions > s.consumptions
    ensures op.i in Step(op, s).running && Step(op, s).running[op.i].pending == NoCall
  {
  }

  lemma {:induction false} RunSplit(ops: seq<Op>, k: nat, s: State)
    requires k <= |ops|
    ensures Run(ops, s) == Run(ops[k..], Run(ops[..k], s))
  {
    if k == |ops| {
      assert ops[..k] == ops;
    } else {
      var init := ops[..|ops| - 1];
      RunSplit(init, k, s);
      assert init[..k] == ops[..k] && ops[k..][..|ops[k..]| - 1] == init[k..];
    }
  }

  // ------------------------------------------------- whole calls of one instance

  /** An instance between two calls. */
  predicate Idle(s: State, i: nat) { i in s.running && s.running[i].pending == NoCall }

  /** A claim that nothing interrupts. */
  function Claim(s: State, i: nat, expired: bool): State {
    Step(Continue(i), Step(Continue(i), Step(BeginClaim(i, expired), s)))
  }

  function Consume(s: State, i: nat): State { Step(Continue(i), Step(BeginConsume(i), s)) }

  function Mark(s: State, i: nat): State { Step(Continue(i), Step(BeginMark(i), s)) }

  function Revoke(s: State, i: nat): State { Step(Continue(i), Step(BeginRevoke(i), s)) }

  lemma ClaimIs(s: State, i: nat, expired: bool)
    requires Inv(s) && Idle(s, i)
    ensures var t := Claim(s, i, expired);
            && Inv(t) && Idle(t, i)
            && t.file == (if s.file != Issued then s.file else if expired then Revoked
                          else if s.claimant.Some? then Issued else Consuming)
            && (t.claimant.Some? <==> s.claimant.Some? || (s.file == Issued && !expired))
            && (s.file == Issued && !expired && s.claimant.None? ==> t.running[i] == Instance(NoCall, true, false))
            && (!(s.file == Issued && !expired && s.claimant.None?) ==> t.running[i] == s.running[i])
  {
    hide Inv;
    StepKeepsInv(BeginClaim(i, expired), s);
    StepKeepsInv(Continue(i), Step(BeginClaim(i, expired), s));
    StepKeepsInv(Continue(i), Step(Continue(i), Step(BeginClaim(i, expired), s)));
  }

  lemma ConsumeIs(s: State, i: nat)
    requires Inv(s) && Idle(s, i) && s.running[i].holds
    ensures var t := Consume(s, i);
            && Inv(t) && Idle(t, i) && t.claimant == s.claimant && t.running[i] == Instance(NoCall, true, true)
            && (var consumed := !s.running[i].spent && s.file == Consuming;
                && t.file == (if consumed then Consumed else s.file)
                && t.consumptions == s.consumptions + if consumed then 1 else 0)
  {
    hide Inv;
    StepKeepsInv(BeginConsume(i), s);
    StepKeepsInv(Continue(i), Step(BeginConsume(i), s));
  }

  lemma ConsumedOnce(s: State)
    requires Inv(s)
    ensures s.consumptions <= 1
  {
  }

  lemma MarkIs(s: State, i: nat)
    requires Inv(s) && Idle(s, i) && s.running[i].holds
    ensures var t := Mark(s, i);
            && Inv(t) && Idle(t, i) && t.claimant == s.claimant && t.running[i] == s.running[i]
            && t.file == (if s.file == Consuming then Consumed else s.file) && t.consumptions == s.consumptions
  {
    hide Inv;
    StepKeepsInv(BeginMark(i), s);
    StepKeepsInv(Continue(i), Step(BeginMark(i), s));
  }

  lemma RevokeIs(s: State, i: nat)
    requires Inv(s) && Idle(s, i)
    ensures var t := Revoke(s, i);
            && Inv(t) && Idle(t, i) && t.claimant == s.claimant && t.running[i] == s.running[i]
            && t.file == (if s.file == Consumed then Consumed else Revoked) && t.consumptions == s.consumptions
  {
    hide Inv;
    StepKeepsInv(BeginRevoke(i), s);
    StepKeepsInv(Continue(i), Step(BeginRevoke(i), s));
  }
}
