/**
 The registry of relay capabilities, which prunes what has expired, against one that
 never forgets anything.
 */
module RelayRegistry {
  import opened Wrappers

  type Nonce = string
  datatype Lease = Lease(expiresAt: int, digest: string)
  datatype Identity = Identity(model: string, expiresAt: int, conflicted: bool)
  datatype RegistryError = Expired | AlreadyRevoked | NonceCollision
  datatype Answer = Done | Refused(error: RegistryError) | Flag(yes: bool)

  datatype State = State(active: map<Nonce, Lease>, revoked: map<Nonce, int>, models: map<Nonce, Identity>)

  datatype Op =
    | Activate(nonce: Nonce, expiresAt: int, digest: string)
    | IsActive(nonce: Nonce, digest: string)
    | Revoke(nonce: Nonce, expiresAt: int)
    | Record(nonce: Nonce, model: string, expiresAt: int)

  function Pruned(s: State, now: int): State {
    State(map n | n in s.active && s.active[n].expiresAt > now :: s.active[n],
          map n | n in s.revoked && s.revoked[n] > now :: s.revoked[n],
          map n | n in s.models && s.models[n].expiresAt > now :: s.models[n])
  }

  function Max(a: int, b: int): int { if a < b then b else a }

  /** One call on the pruning registry; recording a model does not prune. */
  function Call(s: State, op: Op, now: int): (State, Answer) {
    match op
    case Activate(n, expiresAt, digest) =>
      var p := Pruned(s, now);
      if expiresAt <= now then (p, Refused(Expired))
      else if n in p.revoked then (p, Refused(AlreadyRevoked))
      else if n in p.active && p.active[n].digest != digest then (p, Refused(NonceCollision))
      else (p.(active := p.active[n := Lease(expiresAt, digest)]), Done)
    case IsActive(n, digest) =>
      var p := Pruned(s, now);
      (p, Flag(n in p.active && p.active[n].digest == digest))
    case Revoke(n, expiresAt) =>
      var p := Pruned(s, now);
      (p.(active := p.active - {n}, revoked := p.revoked[n := expiresAt]), Done)
    case Record(n, model, expiresAt) =>
      if model == "" then (s, Done)
      else if n in s.models && s.models[n].model != model then
        (s.(models := s.models[n := Identity(s.models[n].model, Max(s.models[n].expiresAt, expiresAt), true)]), Done)
      else
        (s.(models := s.models[n := Identity(model, expiresAt, n in s.models && s.models[n].conflicted)]), Done)
  }

  function ResolvedModel(s: State, n: Nonce): Option<string> {
    if n in s.models && !s.models[n].conflicted then Some(s.models[n].model) else None
  }

  /** The registry that never forgets: every lease, every revocation, every recorded model. */
  datatype Memory = Memory(leases: map<Nonce, Lease>, revoked: map<Nonce, int>, models: map<Nonce, seq<string>>)

  function Recorded(m: Memory, n: Nonce): seq<string> { if n in m.models then m.models[n] else [] }

  function Remember(m: Memory, op: Op, now: int): (Memory, Answer) {
    match op
    case Activate(n, expiresAt, digest) =>
      if expiresAt <= now then (m, Refused(Expired))
      else if n in m.revoked then (m, Refused(AlreadyRevoked))
      else if n in m.leases && m.leases[n].digest != digest then (m, Refused(NonceCollision))
      else (m.(leases := m.leases[n := Lease(expiresAt, digest)]), Done)
    case IsActive(n, digest) =>
      (m, Flag(n in m.leases && n !in m.revoked && m.leases[n].digest == digest && m.leases[n].expiresAt > now))
    case Revoke(n, expiresAt) => (m.(revoked := m.revoked[n := expiresAt]), Done)
    case Record(n, model, expiresAt) =>
      if model == "" then (m, Done) else (m.(models := m.models[n := Recorded(m, n) + [model]]), Done)
  }

  /** An activation that the registry can no longer refuse: the revocation of its nonce,
      or the lease it has under another digest, is past its own expiry. */
  predicate Lapsed(m: Memory, op: Op, now: int) {
    && op.Activate? && op.expiresAt > now
    && if op.nonce in m.revoked then m.revoked[op.nonce] <= now
       else op.nonce in m.leases && m.leases[op.nonce].digest != op.digest && m.leases[op.nonce].expiresAt <= now
  }

  /** The pruning registry holds the leases and revocations of the memory that have not expired. */
  ghost predicate Keeps(s: State, m: Memory, clock: int) {
    && (forall n <- s.active :: n in m.leases && n !in m.revoked && s.active[n] == m.leases[n])
    && (forall n <- m.leases :: m.leases[n].expiresAt > clock && n !in m.revoked ==> n in s.active)
    && (forall n <- s.revoked :: n in m.revoked && s.revoked[n] == m.revoked[n])
    && (forall n <- m.revoked :: m.revoked[n] > clock ==> n in s.revoked)
  }

  lemma KeepsPruned(s: State, m: Memory, clock: int, now: int)
    requires Keeps(s, m, clock) && clock <= now
    ensures Keeps(Pruned(s, now), m, now)
    ensures forall n :: n in Pruned(s, now).active <==> n in m.leases && n !in m.revoked && m.leases[n].expiresAt > now
    ensures forall n :: n in Pruned(s, now).revoked <==> n in m.revoked && m.revoked[n] > now
  {
  }

  lemma ActivateAnswers(s: State, m: Memory, clock: int, op: Op, now: int)
    requires Keeps(s, m, clock) && clock <= now && op.Activate?
    ensures Call(s, op, now).1 == Remember(m, op, now).1 <==> !Lapsed(m, op, now)
    ensures !Lapsed(m, op, now) ==> Keeps(Call(s, op, now).0, Remember(m, op, now).0, now)
  {
    KeepsPruned(s, m, clock, now);
    hide Pruned;
  }

  lemma OtherAnswers(s: State, m: Memory, clock: int, op: Op, now: int)
    requires Keeps(s, m, clock) && clock <= now && (op.IsActive? || op.Revoke?)
    ensures Call(s, op, now).1 == Remember(m, op, now).1
    ensures Keeps(Call(s, op, now).0, Remember(m, op, now).0, now)
  {
    KeepsPruned(s, m, clock, now);
    hide Pruned;
  }

  lemma RecordAnswers(s: State, m: Memory, clock: int, op: Op, now: int)
    requires Keeps(s, m, clock) && clock <= now && op.Record?
    ensures Call(s, op, now).1 == Remember(m, op, now).1
    ensures Keeps(Call(s, op, now).0, Remember(m, op, now).0, now)
  {
  }

  /** One call on both registries: they answer alike exactly when the call has not lapsed. */
  lemma CallAnswers(s: State, m: Memory, clock: int, op: Op, now: int)
    requires Keeps(s, m, clock) && clock <= now
    ensures Call(s, op, now).1 == Remember(m, op, now).1 <==> !Lapsed(m, op, now)
    ensures !Lapsed(m, op, now) ==> Keeps(Call(s, op, now).0, Remember(m, op, now).0, now)
  {
    hide Call, Remember, Keeps;
    if op.Activate? {
      ActivateAnswers(s, m, clock, op, now);
    } else if op.Record? {
      RecordAnswers(s, m, clock, op, now);
    } else {
      OtherAnswers(s, m, clock, op, now);
    }
  }

  // ---------------------------------------------------------------- recorded models

  /** Every call about a nonce names the same expiry, as one signed token does. */
  predicate OneExpiry(op: Op, expiry: Nonce -> int) { op.IsActive? || op.expiresAt == expiry(op.nonce) }

  predicate AllEqual(models: seq<string>) { forall i, k :: 0 <= i < k < |models| ==> models[i] == models[k] }

  ghost predicate ModelAgrees(s: State, models: seq<string>, n: Nonce)
    requires n in s.models && models != []
  {
    s.models[n].model == models[0] && (s.models[n].conflicted <==> !AllEqual(models))
  }

  ghost predicate ModelsAgree(s: State, m: Memory, clock: int, expiry: Nonce -> int) {
    && (forall n <- s.models :: s.models[n].expiresAt == expiry(n) && n in m.models)
    && (forall n <- m.models :: m.models[n] != [] && (expiry(n) > clock ==> n in s.models))
    && (forall n <- s.models :: expiry(n) > clock ==> ModelAgrees(s, m.models[n], n))
  }

  lemma ModelsPruned(s: State, m: Memory, clock: int, now: int, expiry: Nonce -> int)
    requires ModelsAgree(s, m, clock, expiry) && clock <= now
    ensures ModelsAgree(Pruned(s, now), m, now, expiry)
  {
    var p := Pruned(s, now);
    forall n <- p.models ensures ModelAgrees(p, m.models[n], n) { assert ModelAgrees(s, m.models[n], n); }
  }

  lemma ModelsKept(s: State, t: State, m: Memory, k: Memory, now: int, expiry: Nonce -> int)
    requires ModelsAgree(s, m, now, expiry) && t.models == s.models && k.models == m.models
    ensures ModelsAgree(t, k, now, expiry)
  {
    forall n <- t.models | expiry(n) > now ensures ModelAgrees(t, k.models[n], n) { assert ModelAgrees(s, m.models[n], n); }
  }

  lemma CallKeepsModels(s: State, m: Memory, clock: int, op: Op, now: int, expiry: Nonce -> int)
    requires ModelsAgree(s, m, clock, expiry) && clock <= now && OneExpiry(op, expiry)
    ensures ModelsAgree(Call(s, op, now).0, Remember(m, op, now).0, now, expiry)
  {
    if op.Record? {
      if op.model != "" { RecordModels(s, m, clock, op, now, expiry); }
    } else {
      ModelsPruned(s, m, clock, now, expiry);
      ModelsKept(Pruned(s, now), Call(s, op, now).0, m, Remember(m, op, now).0, now, expiry);
    }
    hide ModelAgrees;
  }

  lemma RecordOne(s: State, m: Memory, clock: int, op: Op, expiry: Nonce -> int)
    requires ModelsAgree(s, m, clock, expiry) && OneExpiry(op, expiry) && op.Record? && op.model != "" && expiry(op.nonce) > clock
    ensures var t, k := Call(s, op, clock).0, Remember(m, op, clock).0;
            op.nonce in t.models && ModelAgrees(t, k.models[op.nonce], op.nonce)
  {
    Extend(Recorded(m, op.nonce), op.model);
    if op.nonce in s.models { assert ModelAgrees(s, m.models[op.nonce], op.nonce); }
    hide AllEqual;
  }

  lemma RecordModels(s: State, m: Memory, clock: int, op: Op, now: int, expiry: Nonce -> int)
    requires ModelsAgree(s, m, clock, expiry) && clock <= now && OneExpiry(op, expiry) && op.Record? && op.model != ""
    ensures ModelsAgree(Call(s, op, now).0, Remember(m, op, now).0, now, expiry)
  {
    var t, k := Call(s, op, now).0, Remember(m, op, now).0;
    forall n <- t.models | expiry(n) > now ensures ModelAgrees(t, k.models[n], n) {
      if n == op.nonce { RecordOne(s, m, clock, op, expiry); } else { assert ModelAgrees(s, m.models[n], n); }
    }
    hide ModelAgrees;
  }

  lemma Extend(models: seq<string>, model: string)
    ensures AllEqual(models + [model]) <==> AllEqual(models) && (models != [] ==> models[0] == model)
  {
    var all := models + [model];
    if AllEqual(all) {
      assert forall i :: 0 <= i < |models| ==> all[i] == models[i];
      if models != [] { assert all[0] == all[|models|]; }
    }
  }

  datatype Run = Run(state: State, memory: Memory, clock: int, answers: seq<Answer>, remembered: seq<Answer>)

  const START := Run(State(map[], map[], map[]), Memory(map[], map[], map[]), 0, [], [])

  /** The same calls, each at its time, on both registries. */
  function Both(calls: seq<(Op, int)>): (r: Run)
    ensures |r.answers| == |calls| == |r.remembered|
  {
    if calls == [] then START
    else
      var r, op, now := Both(calls[..|calls| - 1]), calls[|calls| - 1].0, calls[|calls| - 1].1;
      var (state, answer) := Call(r.state, op, now);
      var (memory, remembered) := Remember(r.memory, op, now);
      Run(state, memory, now, r.answers + [answer], r.remembered + [remembered])
  }

  ghost predicate Monotone(calls: seq<(Op, int)>) {
    (forall i :: 0 <= i < |calls| ==> calls[i].1 >= 0) && (forall i, k :: 0 <= i < k < |calls| ==> calls[i].1 <= calls[k].1)
  }

  /** No call of the sequence has lapsed by the time it is made. */
  ghost predicate NeverLapses(calls: seq<(Op, int)>) {
    forall i :: 0 <= i < |calls| ==> !Lapsed(Both(calls[..i]).memory, calls[i].0, calls[i].1)
  }

  lemma NeverLapsesPrefix(calls: seq<(Op, int)>, k: nat)
    requires NeverLapses(calls) && k <= |calls|
    ensures NeverLapses(calls[..k])
  {
    forall i | 0 <= i < k ensures !Lapsed(Both(calls[..k][..i]).memory, calls[..k][i].0, calls[..k][i].1) {
      assert calls[..k][..i] == calls[..i];
      assert !Lapsed(Both(calls[..i]).memory, calls[i].0, calls[i].1);
    }
  }

  lemma {:induction false} BothKeep(calls: seq<(Op, int)>)
    requires Monotone(calls) && NeverLapses(calls)
    ensures var r := Both(calls);
            && Keeps(r.state, r.memory, r.clock) && r.answers == r.remembered
            && r.clock == (if calls == [] then 0 else calls[|calls| - 1].1)
  {
    if calls != [] {
      hide Keeps, Call, Remember, Lapsed;
      var n := |calls| - 1;
      NeverLapsesPrefix(calls, n);
      BothKeep(calls[..n]);
      var r := Both(calls[..n]);
      assert !Lapsed(r.memory, calls[n].0, calls[n].1);
      CallAnswers(r.state, r.memory, r.clock, calls[n].0, calls[n].1);
    }
  }

  lemma {:induction false} AnswersPrefix(calls: seq<(Op, int)>, i: nat)
    requires i < |calls|
    ensures Both(calls).answers[i] == Both(calls[..i + 1]).answers[i]
    ensures Both(calls).remembered[i] == Both(calls[..i + 1]).remembered[i]
  {
    hide Call, Remember;
    var n := |calls| - 1;
    if i < n {
      assert calls[..n][..i + 1] == calls[..i + 1];
      AnswersPrefix(calls[..n], i);
    } else {
      assert calls[..i + 1] == calls;
    }
  }

  /** The first call to lapse, if any does. */
  lemma {:induction false} FirstLapse(calls: seq<(Op, int)>) returns (i: nat)
    requires !NeverLapses(calls)
    ensures i < |calls| && NeverLapses(calls[..i]) && Lapsed(Both(calls[..i]).memory, calls[i].0, calls[i].1)
  {
    hide Both, Lapsed;
    var n := |calls| - 1;
    assert calls[..n + 1] == calls;
    if NeverLapses(calls[..n]) {
      i := n;
      if !Lapsed(Both(calls[..n]).memory, calls[n].0, calls[n].1) { Longer(calls, n); }
    } else {
      i := FirstLapse(calls[..n]);
      assert calls[..n][..i] == calls[..i];
    }
  }

  lemma Longer(calls: seq<(Op, int)>, i: nat)
    requires i < |calls| && NeverLapses(calls[..i]) && !Lapsed(Both(calls[..i]).memory, calls[i].0, calls[i].1)
    ensures NeverLapses(calls[..i + 1])
  {
    hide Both, Lapsed;
    var longer := calls[..i + 1];
    forall k | 0 <= k < |longer| ensures !Lapsed(Both(longer[..k]).memory, longer[k].0, longer[k].1) {
      assert longer[..k] == calls[..k] == calls[..i][..k];
      if k < i { assert calls[..i][k] == calls[k]; }
    }
  }

  /** The first call to lapse is answered differently. */
  lemma {:induction false} LapseShows(calls: seq<(Op, int)>, i: nat)
    requires Monotone(calls) && i < |calls| && NeverLapses(calls[..i])
    requires Lapsed(Both(calls[..i]).memory, calls[i].0, calls[i].1)
    ensures Both(calls).answers[i] != Both(calls).remembered[i]
  {
    hide Keeps, Call, Remember, Lapsed, NeverLapses;
    var upTo, r := calls[..i + 1], Both(calls[..i]);
    BothKeep(calls[..i]);
    CallAnswers(r.state, r.memory, r.clock, calls[i].0, calls[i].1);
    AnswersPrefix(calls, i);
    assert upTo[..i] == calls[..i] && upTo[i] == calls[i];
    BothLast(upTo);
    hide Both, Monotone;
  }

  lemma BothLast(calls: seq<(Op, int)>)
    requires calls != []
    ensures var n := |calls| - 1;
            var r, op, now := Both(calls[..n]), calls[n].0, calls[n].1;
            Both(calls).answers[n] == Call(r.state, op, now).1 && Both(calls).remembered[n] == Remember(r.memory, op, now).1
  {
    hide Call, Remember;
  }

  /** Pruning is invisible, exactly: under a clock that does not go back, every call gives
      the answer of the registry that never forgets if and only if no activation comes
      after the expiry of the revocation, or of the lease under another digest, that
      should have refused it. */
  lemma InvisibleIff(calls: seq<(Op, int)>)
    requires Monotone(calls)
    ensures Both(calls).answers == Both(calls).remembered <==> NeverLapses(calls)
  {
    hide Keeps, Call, Remember, Lapsed, Both;
    if NeverLapses(calls) {
      BothKeep(calls);
    } else {
      var i := FirstLapse(calls);
      LapseShows(calls, i);
    }
  }

  // ------------------------------------------------------------ one expiry per nonce

  ghost predicate NamesOneExpiry(m: Memory, expiry: Nonce -> int) {
    (forall n <- m.leases :: m.leases[n].expiresAt == expiry(n)) && (forall n <- m.revoked :: m.revoked[n] == expiry(n))
  }

  lemma {:induction false} MemoryNamesOneExpiry(calls: seq<(Op, int)>, expiry: Nonce -> int)
    requires forall c <- calls :: OneExpiry(c.0, expiry)
    ensures NamesOneExpiry(Both(calls).memory, expiry)
  {
    hide Call;
    if calls != [] {
      var n := |calls| - 1;
      forall c <- calls[..n] ensures OneExpiry(c.0, expiry) { assert c in calls; }
      MemoryNamesOneExpiry(calls[..n], expiry);
      assert calls[n] in calls;
    }
  }

  /** With one expiry per nonce nothing lapses, so pruning forgets nothing that matters. */
  lemma PruningIsInvisible(calls: seq<(Op, int)>, expiry: Nonce -> int)
    requires Monotone(calls) && (forall c <- calls :: OneExpiry(c.0, expiry))
    ensures NeverLapses(calls) && Both(calls).answers == Both(calls).remembered
  {
    hide Both;
    forall i | 0 <= i < |calls| ensures !Lapsed(Both(calls[..i]).memory, calls[i].0, calls[i].1) {
      forall c <- calls[..i] ensures OneExpiry(c.0, expiry) { assert c in calls; }
      MemoryNamesOneExpiry(calls[..i], expiry);
      assert calls[i] in calls;
    }
    InvisibleIff(calls);
  }

  lemma {:induction false} RevokedIsRemembered(calls: seq<(Op, int)>, i: nat)
    requires i < |calls| && calls[i].0.Revoke?
    ensures calls[i].0.nonce in Both(calls).memory.revoked
  {
    hide Call;
    if i < |calls| - 1 {
      assert calls[..|calls| - 1][i] == calls[i];
      RevokedIsRemembered(calls[..|calls| - 1], i);
    }
  }

  /** While nothing lapses, a revoked nonce is never active again. */
  lemma {:induction false} RevokedStaysRevoked(calls: seq<(Op, int)>, i: nat, k: nat)
    requires Monotone(calls) && NeverLapses(calls) && i < k < |calls|
    requires calls[i].0.Revoke? && calls[k].0.IsActive? && calls[k].0.nonce == calls[i].0.nonce
    ensures Both(calls).answers[k] == Flag(false)
  {
    hide Call, Remember, Keeps, Lapsed, Monotone, NeverLapses, Both;
    var upTo := calls[..k + 1];
    assert upTo[i] == calls[i] && upTo[k] == calls[k];
    MonotonePrefix(calls, k + 1);
    NeverLapsesPrefix(calls, k + 1);
    BothKeep(upTo);
    AnswersPrefix(calls, k);
    LastAnswer(upTo, i);
  }

  lemma MonotonePrefix(calls: seq<(Op, int)>, k: nat)
    requires Monotone(calls) && k <= |calls|
    ensures Monotone(calls[..k])
  {
  }

  lemma LastAnswer(calls: seq<(Op, int)>, i: nat)
    requires i < |calls| - 1 && calls[i].0.Revoke? && calls[|calls| - 1].0.IsActive?
    requires calls[|calls| - 1].0.nonce == calls[i].0.nonce
    ensures Both(calls).remembered[|calls| - 1] == Flag(false)
  {
    hide Both, Call;
    var n := |calls| - 1;
    assert calls[..n][i] == calls[i];
    RevokedIsRemembered(calls[..n], i);
    BothLast(calls);
  }

  lemma {:induction false} BothModels(calls: seq<(Op, int)>, expiry: Nonce -> int)
    requires Monotone(calls) && (forall c <- calls :: OneExpiry(c.0, expiry))
    ensures ModelsAgree(Both(calls).state, Both(calls).memory, Both(calls).clock, expiry)
    ensures Both(calls).clock == (if calls == [] then 0 else calls[|calls| - 1].1)
  {
    if calls != [] {
      hide ModelsAgree, Call, Remember;
      var n := |calls| - 1;
      forall c <- calls[..n] ensures OneExpiry(c.0, expiry) { assert c in calls; }
      BothModels(calls[..n], expiry);
      var r := Both(calls[..n]);
      assert calls[n] in calls;
      CallKeepsModels(r.state, r.memory, r.clock, calls[n].0, calls[n].1, expiry);
    }
  }

  /** While a nonce is unexpired its model is resolved exactly when at least one was
      recorded over the whole history and all recorded models agree. */
  lemma ResolvedIffUnanimous(calls: seq<(Op, int)>, expiry: Nonce -> int, n: Nonce)
    requires Monotone(calls) && (forall c <- calls :: OneExpiry(c.0, expiry))
    requires expiry(n) > Both(calls).clock
    ensures var r := Both(calls);
            && (ResolvedModel(r.state, n).Some? <==> Recorded(r.memory, n) != [] && AllEqual(Recorded(r.memory, n)))
            && (ResolvedModel(r.state, n).Some? ==> ResolvedModel(r.state, n).value == Recorded(r.memory, n)[0])
  {
    BothModels(calls, expiry);
  }

  lemma BothStep(calls: seq<(Op, int)>, op: Op, now: int)
    ensures var r := Both(calls);
            Both(calls + [(op, now)]) ==
              Run(Call(r.state, op, now).0, Remember(r.memory, op, now).0, now,
                  r.answers + [Call(r.state, op, now).1], r.remembered + [Remember(r.memory, op, now).1])
  {
    var all := calls + [(op, now)];
    assert all[..|all| - 1] == calls;
    hide Call, Remember;
  }

  /** A lapse: a revocation that names an earlier expiry than the lease is forgotten
      first, and the nonce can then be activated again. */
  lemma ShortRevocationIsForgotten(n: Nonce, digest: string)
    ensures var calls := [(Activate(n, 10, digest), 1)] + [(Revoke(n, 5), 2)] + [(Activate(n, 10, digest), 6)] + [(IsActive(n, digest), 7)];
            Monotone(calls) && Both(calls).answers[3] == Flag(true) && Both(calls).remembered[3] == Flag(false)
  {
    var lease := Lease(10, digest);
    var one := [(Activate(n, 10, digest), 1)];
    var two := one + [(Revoke(n, 5), 2)];
    var three := two + [(Activate(n, 10, digest), 6)];
    assert one == [] + [(Activate(n, 10, digest), 1)];
    BothStep([], Activate(n, 10, digest), 1);
    BothStep(one, Revoke(n, 5), 2);
    BothStep(two, Activate(n, 10, digest), 6);
    BothStep(three, IsActive(n, digest), 7);
    LeaseOnly(map[], n, lease, 1);
    LeaseOnly(map[n := lease], n, lease, 2);
    hide Both;
    assert Both(one).state == State(map[n := lease], map[], map[]) && Both(one).memory == Memory(map[n := lease], map[], map[]);
    assert Both(two).state == State(map[], map[n := 5], map[]) && Both(two).memory == Memory(map[n := lease], map[n := 5], map[]);
    assert Pruned(Both(two).state, 6) == State(map[], map[], map[]);
    assert Both(three).state == State(map[n := lease], map[], map[]) && Both(three).memory == Memory(map[n := lease], map[n := 5], map[]);
    LeaseOnly(map[n := lease], n, lease, 7);
  }

  lemma LeaseOnly(active: map<Nonce, Lease>, n: Nonce, lease: Lease, now: int)
    requires active.Keys <= {n} && (n in active ==> active[n] == lease) && lease.expiresAt > now
    ensures Pruned(State(active, map[], map[]), now) == State(active, map[], map[])
  {
  }

  // ------------------------------------------------------------------- the registry

  class Registry {
    var active: map<Nonce, Lease>
    var revoked: map<Nonce, int>
    var models: map<Nonce, Identity>

    function Contents(): State
      reads this
    {
      State(active, revoked, models)
    }

    constructor ()
      ensures Contents() == START.state
    {
      active, revoked, models := map[], map[], map[];
    }

    method PruneLeases(now: int)
      modifies `active
      ensures active == Pruned(old(Contents()), now).active
    {
      var todo := active.Keys;
      while todo != {}
        invariant todo <= old(active).Keys
        invariant active == map n | n in old(active) && (n in todo || old(active)[n].expiresAt > now) :: old(active)[n]
        decreases |todo|
      {
        var n :| n in todo;
        if active[n].expiresAt <= now { active := active - {n}; }
        todo := todo - {n};
      }
    }

    method PruneRevocations(now: int)
      modifies `revoked
      ensures revoked == Pruned(old(Contents()), now).revoked
    {
      var todo := revoked.Keys;
      while todo != {}
        invariant todo <= old(revoked).Keys
        invariant revoked == map n | n in old(revoked) && (n in todo || old(revoked)[n] > now) :: old(revoked)[n]
        decreases |todo|
      {
        var n :| n in todo;
        if revoked[n] <= now { revoked := revoked - {n}; }
        todo := todo - {n};
      }
    }

    method PruneModels(now: int)
      modifies `models
      ensures models == Pruned(old(Contents()), now).models
    {
      var todo := models.Keys;
      while todo != {}
        invariant todo <= old(models).Keys
        invariant models == map n | n in old(models) && (n in todo || old(models)[n].expiresAt > now) :: old(models)[n]
        decreases |todo|
      {
        var n :| n in todo;
        if models[n].expiresAt <= now { models := models - {n}; }
        todo := todo - {n};
      }
    }

    /** The three loops that drop what has expired. */
    method Prune(now: int)
      modifies this
      ensures Contents() == Pruned(old(Contents()), now)
    {
      PruneLeases(now);
      PruneRevocations(now);
      PruneModels(now);
    }

    method ActivateNonce(nonce: Nonce, expiresAt: int, digest: string, now: int) returns (answer: Answer)
      modifies this
      ensures (Contents(), answer) == Call(old(Contents()), Activate(nonce, expiresAt, digest), now)
    {
      Prune(now);
      if expiresAt <= now { return Refused(Expired); }
      if nonce in revoked { return Refused(AlreadyRevoked); }
      if nonce in active && active[nonce].digest != digest { return Refused(NonceCollision); }
      active := active[nonce := Lease(expiresAt, digest)];
      answer := Done;
    }

    method CheckActive(nonce: Nonce, digest: string, now: int) returns (yes: bool)
      modifies this
      ensures (Contents(), Flag(yes)) == Call(old(Contents()), IsActive(nonce, digest), now)
    {
      Prune(now);
      yes := nonce in active && active[nonce].digest == digest;
    }

    method RevokeNonce(nonce: Nonce, expiresAt: int, now: int)
      modifies this
      ensures Contents() == Call(old(Contents()), Revoke(nonce, expiresAt), now).0
    {
      Prune(now);
      active := active - {nonce};
      revoked := revoked[nonce := expiresAt];
    }

    method RecordResolvedModel(nonce: Nonce, model: string, expiresAt: int)
      modifies this
      ensures Contents() == Call(old(Contents()), Record(nonce, model, expiresAt), 0).0
    {
      if model == "" { return; }
      if nonce in models && models[nonce].model != model {
        models := models[nonce := Identity(models[nonce].model, Max(models[nonce].expiresAt, expiresAt), true)];
        return;
      }
      models := models[nonce := Identity(model, expiresAt, nonce in models && models[nonce].conflicted)];
    }
  }
}
