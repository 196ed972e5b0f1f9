/**
 The permit store of one process: what its calls check, store and refuse.  Each
 call is a stretch of a run of `PermitMachine`, kept in the ghost state, so what
 holds of every interleaved run holds of whatever this store has done.
 */
module PermitStore {
  import opened Wrappers
  import opened Protocol
  import M = PermitMachine

  /** What a permit binds together: proposal, view, artifact, context and evidence. */
  datatype Binding = Binding(agent: string, proposal: string, view: string, artifact: string,
                             context: string, evidence: string)
  datatype Stored = Stored(state: PermitState, run: RunId, binding: Binding, nonce: nat, expiresAt: int)
  datatype Bundle = Bundle(proposal: string, context: string, digest: string, coverageComplete: bool,
                           requiredPassed: bool, verifierInput: string)
  datatype Proposal = Proposal(id: string, run: RunId, agent: string, view: string, artifact: string,
                               manifest: string, isSealed: bool)
  datatype PermitError = BindingMismatch | Replay | Expired | StateInvalid | Missing

  class Capability {
    const id: PermitId
    const nonce: nat
    var locallyConsumed: bool

    constructor (id: PermitId, nonce: nat)
      ensures this.id == id && this.nonce == nonce && !locallyConsumed
    {
      this.id, this.nonce, locallyConsumed := id, nonce, false;
    }
  }

  /** The files of one permit are what its machine says, and no call of process `me` is unfinished. */
  ghost predicate Tracks(p: Stored, claimed: bool, m: M.State, me: nat) {
    M.Inv(m) && m.file == p.state && (m.claimant.Some? <==> claimed) && M.Idle(m, me)
  }

  class Store {
    var permits: map<PermitId, Stored>
    var claims: set<PermitId>
    /** This process among all that ever opened the directory. */
    ghost const self: nat
    ghost var machine: map<PermitId, M.State>

    ghost predicate Valid()
      reads this
    {
      && machine.Keys == permits.Keys && claims <= permits.Keys
      && (forall id <- permits :: Tracks(permits[id], id in claims, machine[id], self))
    }

    /** The capability was handed out by this process, and its flag is the machine's. */
    ghost predicate Mine(cap: Capability)
      reads this, cap
    {
      && cap.id in permits && cap.id in machine && permits[cap.id].nonce == cap.nonce
      && M.Idle(machine[cap.id], self)
      && machine[cap.id].running[self].holds && machine[cap.id].running[self].spent == cap.locallyConsumed
    }

    /** Only permit `id` differs, by its state, and its machine has moved to `m`. */
    twostate predicate Moved(id: PermitId, m: M.State)
      reads this
    {
      && id in permits && id in old(permits)
      && permits == old(permits)[id := old(permits)[id].(state := m.file)]
      && machine == old(machine)[id := m]
    }

    /** A process opens the directory: the files are as its predecessors left them. */
    constructor (files: map<PermitId, Stored>, claimFiles: set<PermitId>, ghost past: map<PermitId, M.State>, ghost me: nat)
      requires past.Keys == files.Keys && claimFiles <= files.Keys
      requires forall id <- files ::
                 && M.Inv(past[id]) && past[id].file == files[id].state
                 && (past[id].claimant.Some? <==> id in claimFiles) && me !in past[id].started
      ensures Valid() && permits == files && claims == claimFiles
      ensures forall id <- machine :: machine[id] == M.Step(M.Start(me), past[id])
    {
      permits, claims, self := files, claimFiles, me;
      machine := map id | id in past :: M.Step(M.Start(me), past[id]);
      new;
      hide M.Inv;
      forall id <- permits ensures Tracks(permits[id], id in claims, machine[id], self) {
        M.RunningStarted(past[id]);
        M.StepKeepsInv(M.Start(me), past[id]);
      }
    }

    /** Stores a permit only for sealed, fully evidenced inputs that name one another. */
    method Issue(id: PermitId, run: RunId, agent: string, p: Proposal, view: string, context: string,
                 evidence: Bundle, nonce: nat, now: int, ttl: int) returns (r: Result<Stored, PermitError>)
      requires Valid() && id !in permits
      modifies this
      ensures Valid() && claims == old(claims)
      ensures r.Success? <==>
                && p.run == run && p.agent == agent && p.view == view && p.isSealed && evidence.proposal == p.id
                && evidence.context == context && evidence.coverageComplete && evidence.requiredPassed
                && evidence.verifierInput == p.manifest
      ensures r.Success? ==>
                && permits == old(permits)[id := r.value] && r.value.state == Issued && r.value.run == run
                && r.value.binding == Binding(agent, p.id, view, p.artifact, context, evidence.digest)
                && r.value.expiresAt > now
      ensures r.Failure? ==> permits == old(permits) && r.error == BindingMismatch
    {
      if p.run != run || p.agent != agent || p.view != view || !p.isSealed || evidence.proposal != p.id
         || evidence.context != context || !evidence.coverageComplete || !evidence.requiredPassed
         || evidence.verifierInput != p.manifest {
        return Failure(BindingMismatch);
      }
      var stored := Stored(Issued, run, Binding(agent, p.id, view, p.artifact, context, evidence.digest), nonce,
                           now + if ttl < 1 then 1 else ttl);
      permits := permits[id := stored];
      machine := machine[id := M.Step(M.Start(self), M.Issue())];
      r := Success(stored);
    }

    /** A durable write of one permit file together with the machine's step. */
    method Write(id: PermitId, state: PermitState, ghost m: M.State)
      requires Valid() && id in permits
      requires Tracks(permits[id].(state := state), id in claims, m, self)
      modifies `permits, `machine
      ensures Valid() && Moved(id, m)
    {
      hide Tracks;
      TracksFile(permits[id].(state := state), id in claims, m, self);
      permits := permits[id := permits[id].(state := state)];
      machine := machine[id := m];
    }

    /** Claims an issued, unexpired, unclaimed permit whose bindings all agree. */
    method Claim(id: PermitId, presented: Binding, sound: bool, now: int) returns (r: Result<Capability, PermitError>)
      requires Valid()
      modifies this
      ensures Valid()
      ensures r.Success? <==>
                && id in old(permits) && old(permits)[id].binding == presented && sound
                && old(permits)[id].state == Issued && now < old(permits)[id].expiresAt && id !in old(claims)
      ensures r.Success? ==>
                && fresh(r.value) && Mine(r.value) && !r.value.locallyConsumed && r.value.id == id
                && permits[id].state == Consuming && claims == old(claims) + {id}
      ensures r.Failure? ==> claims == old(claims)
      ensures r.Failure? && r.error != Expired ==> permits == old(permits)
      ensures r == Failure(Expired) ==>
                id in old(permits) && permits == old(permits)[id := old(permits)[id].(state := Revoked)]
      ensures r == Failure(Expired) <==>
                && id in old(permits) && old(permits)[id].binding == presented && sound
                && old(permits)[id].state == Issued && old(permits)[id].expiresAt <= now
      ensures id in old(permits) ==>
                machine == if old(permits)[id].binding == presented && sound
                           then old(machine)[id := M.Claim(old(machine)[id], self, old(permits)[id].expiresAt <= now)]
                           else old(machine)
    {
      hide M.Inv, M.Claim;
      if id !in permits { return Failure(Missing); }
      var permit := permits[id];
      if permit.binding != presented || !sound { return Failure(BindingMismatch); }
      var expired := permit.expiresAt <= now;
      ghost var m := M.Claim(machine[id], self, expired);
      M.ClaimIs(machine[id], self, expired);
      if permit.state != Issued {
        Write(id, permit.state, m);
        return Failure(Replay);
      }
      if expired {
        Write(id, Revoked, m);
        return Failure(Expired);
      }
      if id in claims {
        Write(id, permit.state, m);
        return Failure(Replay);
      }
      claims, permits, machine := claims + {id}, permits[id := permit.(state := Consuming)], machine[id := m];
      var cap := new Capability(id, permit.nonce);
      r := Success(cap);
    }

    /** The one-shot use of a capability. */
    method Consume(cap: Capability) returns (r: Result<(), PermitError>)
      requires Valid() && Mine(cap)
      modifies this, cap
      ensures Valid() && Mine(cap) && cap.locallyConsumed && claims == old(claims)
      ensures r.Success? <==> !old(cap.locallyConsumed) && old(permits)[cap.id].state == Consuming
      ensures r.Success? ==> permits[cap.id].state == Consumed && machine[cap.id].consumptions == 1
      ensures r.Failure? ==> r.error == Replay && permits == old(permits)
      ensures Moved(cap.id, M.Consume(old(machine)[cap.id], self))
    {
      hide M.Inv, M.Consume;
      ghost var m := M.Consume(machine[cap.id], self);
      M.ConsumeIs(machine[cap.id], self);
      M.ConsumedOnce(m);
      var usable := !cap.locallyConsumed;
      cap.locallyConsumed := true;
      if usable && permits[cap.id].state == Consuming {
        Write(cap.id, Consumed, m);
        return Success(());
      }
      Write(cap.id, permits[cap.id].state, m);
      r := Failure(Replay);
    }

    /** Idempotent confirmation; refused unless the permit is being or has been consumed. */
    method MarkConsumed(cap: Capability) returns (r: Result<Stored, PermitError>)
      requires Valid() && Mine(cap)
      modifies `permits, `machine
      ensures Valid() && Mine(cap)
      ensures r.Success? <==> old(permits)[cap.id].state in {Consuming, Consumed}
      ensures r.Success? ==> permits[cap.id].state == Consumed && r.value == permits[cap.id]
      ensures r.Failure? ==> r.error == StateInvalid && permits == old(permits)
      ensures Moved(cap.id, M.Mark(old(machine)[cap.id], self))
    {
      hide M.Inv, M.Mark;
      ghost var m := M.Mark(machine[cap.id], self);
      M.MarkIs(machine[cap.id], self);
      var next := if permits[cap.id].state == Consuming then Consumed else permits[cap.id].state;
      Write(cap.id, next, m);
      r := if next == Consumed then Success(permits[cap.id]) else Failure(StateInvalid);
    }

    /** Revocation never takes back a consumed permit. */
    method Revoke(id: PermitId) returns (r: Result<Stored, PermitError>)
      requires Valid()
      modifies `permits, `machine
      ensures Valid()
      ensures id !in permits ==> r == Failure(Missing) && permits == old(permits)
      ensures id in old(permits) ==>
                && Moved(id, M.Revoke(old(machine)[id], self)) && r == Success(permits[id])
                && permits[id].state == (if old(permits)[id].state == Consumed then Consumed else Revoked)
    {
      hide M.Inv, M.Revoke;
      if id !in permits { return Failure(Missing); }
      ghost var m := M.Revoke(machine[id], self);
      M.RevokeIs(machine[id], self);
      Write(id, if permits[id].state == Consumed then Consumed else Revoked, m);
      r := Success(permits[id]);
    }
  }

  lemma TracksFile(p: Stored, claimed: bool, m: M.State, me: nat)
    requires Tracks(p, claimed, m, me)
    ensures m.file == p.state
  {
  }
}
