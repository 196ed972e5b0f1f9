/**
 From check results, sealed payload and live tree to the promotion: what the
 coordinator's evidence and the transaction's staged tree stand for.
 */
module ProposalChain {
  import opened Wrappers
  import opened PathPolicy
  import opened FileTree
  import opened TreeWalk
  import opened Changes
  import opened Sealing
  import opened Staging
  import Protocol
  import Checks = TrustedChecks
  import Promotion = Coordinator

  /** No two manifests share a hash. */
  ghost predicate Injective(hash: Entries -> string) { forall a: Entries, b: Entries :: hash(a) == hash(b) ==> a == b }

  /** The protocol's tree for a manifest: its two class-wise hashes. */
  function TreeOf(m: Entries, hash: Entries -> string): Protocol.Tree {
    Protocol.Tree(hash(Part(m, Versioned)), hash(Part(m, Managed)))
  }

  ghost predicate Listed(m: Entries) { forall p <- m :: m[p].pathClass in BOTH }

  lemma SameTreeIff(a: Entries, b: Entries, hash: Entries -> string)
    requires Injective(hash) && Listed(a) && Listed(b)
    ensures TreeOf(a, hash) == TreeOf(b, hash) <==> a == b
  {
    if TreeOf(a, hash) == TreeOf(b, hash) {
      forall p: Path ensures Lookup(a, p) == Lookup(b, p) {
        PartsLookup(a, p);
        PartsLookup(b, p);
      }
      SameLookups(a, b);
    }
  }

  lemma PartsLookup(m: Entries, p: Path)
    requires Listed(m)
    ensures Lookup(m, p) ==
              if Lookup(Part(m, Versioned), p).Some? then Lookup(Part(m, Versioned), p) else Lookup(Part(m, Managed), p)
  {
  }

  /** The tree the transaction stages; none where the assembly throws or cannot be listed. */
  ghost function AssembledTree(payload: Files, live: Files, policy: Policy, m: Entries, hash: Entries -> string)
    : Option<Protocol.Tree>
  {
    var staged := WithModes(Assembled(payload, live, policy), m);
    if Fits(Overlay(map[], payload, Selected(payload, policy, {Versioned})), live, Selected(live, policy, {Managed}))
       && m.Keys <= Assembled(payload, live, policy).Keys && Manifestable(staged, policy, BOTH)
    then Some(TreeOf(Manifest(staged, policy, BOTH), hash)) else None
  }

  /** The coordinator's evidence about a verified manifest. */
  ghost function EvidenceOf(checks: seq<Checks.Check>, required: seq<string>, verified: Entries, hash: Entries -> string)
    : Promotion.Evidence
  {
    Promotion.Evidence(TreeOf(verified, hash), Checks.Evidence(checks, required), Checks.Satisfied(checks, required))
  }

  lemma SealedIsListed(root: Option<Mode>, payload: Files, policy: Policy, s: Snapshot)
    requires SealedExactly(root, payload, policy, s)
    ensures Listed(Table(s.rows))
  {
    var m := Table(s.rows);
    forall p <- m ensures m[p].pathClass in BOTH {
      assert p in Manifest(payload, policy, BOTH) && Manifest(payload, policy, BOTH)[p] == Readonly(m[p]);
    }
  }

  lemma StagedIsListed(f: Files, policy: Policy)
    requires Manifestable(f, policy, BOTH)
    ensures Listed(Manifest(f, policy, BOTH))
  {
  }

  lemma StagedTreeIff(root: Option<Mode>, payload: Files, live: Files, policy: Policy, s: Snapshot, hash: Entries -> string)
    requires WellFormed(payload) && WellFormed(live) && Manifestable(live, policy, {Managed}) && Injective(hash)
    requires SealedExactly(root, payload, policy, s)
    ensures var m := Table(s.rows);
            AssembledTree(payload, live, policy, m, hash) == Some(TreeOf(m, hash)) <==>
            UpToMode(Manifest(live, policy, {Managed}), Part(m, Managed))
  {
    var m := Table(s.rows);
    var staged := WithModes(Assembled(payload, live, policy), m);
    SealedIsListed(root, payload, policy, s);
    StagingIsExactIff(root, payload, live, policy, s);
    if Manifestable(staged, policy, BOTH) {
      StagedIsListed(staged, policy);
      SameTreeIff(Manifest(staged, policy, BOTH), m, hash);
    }
    hide Manifest, Manifestable, WellFormed, SealedExactly, UpToMode, Fits, Injective, Listed, TreeOf, Assembled, WithModes;
  }

  lemma SufficientIff(checks: seq<Checks.Check>, required: seq<string>, verified: Entries, sealed: Entries, hash: Entries -> string)
    requires Injective(hash) && Listed(verified) && Listed(sealed)
    ensures Promotion.Sufficient(EvidenceOf(checks, required, verified, hash), TreeOf(sealed, hash)) <==>
            Checks.Satisfied(checks, required) && verified == sealed
  {
    SameTreeIff(verified, sealed, hash);
    hide Injective, Listed, TreeOf;
  }

  /** When a promotion goes through, in terms of what lies on the disk: exactly when every
      required check has its one passing result, the verifier read exactly the sealed
      manifest, the payload is still sealed exactly, the live platform-managed entries
      agree with the sealed ones up to mode, and the permit is in time and still bound to
      the current View and context. */
  lemma CommitsIff(checks: seq<Checks.Check>, required: seq<string>, verified: Entries, root: Option<Mode>, payload: Files,
                   live: Files, policy: Policy, s: Snapshot, hash: Entries -> string, binding: Protocol.ViewBinding,
                   w: Promotion.World)
    requires WellFormed(payload) && WellFormed(live) && Manifestable(live, policy, {Managed}) && Injective(hash) && Listed(verified)
    requires w.intact <==> SealedExactly(root, payload, policy, s)
    requires w.assembled == AssembledTree(payload, live, policy, Table(s.rows), hash)
    ensures var m := Table(s.rows);
            Promotion.Sufficient(EvidenceOf(checks, required, verified, hash), TreeOf(m, hash))
              && Promotion.Willing(w, TreeOf(m, hash), binding) <==>
            && Checks.Satisfied(checks, required) && verified == m && SealedExactly(root, payload, policy, s)
            && UpToMode(Manifest(live, policy, {Managed}), Part(m, Managed))
            && w.resolves && !w.expiresEarly && !w.expires && w.latest == Some(binding)
  {
    if SealedExactly(root, payload, policy, s) {
      SealedIsListed(root, payload, policy, s);
      SufficientIff(checks, required, verified, Table(s.rows), hash);
      StagedTreeIff(root, payload, live, policy, s, hash);
    }
    hide Manifest, Manifestable, WellFormed, SealedExactly, UpToMode, Injective, Listed, TreeOf, AssembledTree, EvidenceOf;
    hide Promotion.Sufficient, Checks.Satisfied;
  }
}
