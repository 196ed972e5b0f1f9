/**
 Re-assembly of a sealed proposal: sealed versioned entries, live platform-managed
 entries, and the modes of the stored manifest.
 */
module Staging {
  import opened Wrappers
  import opened PathPolicy
  import opened FileTree
  import opened TreeWalk
  import opened ManifestWalk
  import opened Changes
  import opened Sealing

  function WithMode(n: Node, mode: Mode): Node {
    match n
    case File(_, content) => File(mode & PERMISSIONS, content)
    case Dir(_) => Dir(mode & PERMISSIONS)
    case _ => n
  }

  function WithModes(f: Files, modes: Entries): Files {
    map p | p in f :: if p in modes then WithMode(f[p], modes[p].mode) else f[p]
  }

  /** chmod over the listed paths; a missing path is an error. */
  method ApplyManifestModes(v: Volume, listed: Entries) returns (ok: bool)
    modifies v
    ensures ok <==> listed.Keys <= old(v.nodes).Keys
    ensures ok ==> v.nodes == WithModes(old(v.nodes), listed)
  {
    ghost var start := v.nodes;
    var todo := listed.Keys;
    while todo != {}
      invariant todo <= listed.Keys && listed.Keys - todo <= start.Keys
      invariant v.nodes.Keys == start.Keys
      invariant forall p <- start :: v.nodes[p] == if p in listed && p !in todo then WithMode(start[p], listed[p].mode) else start[p]
      decreases |todo|
    {
      var p :| p in todo;
      if p !in v.nodes { return false; }
      v.nodes := v.nodes[p := WithMode(v.nodes[p], listed[p].mode)];
      todo := todo - {p};
    }
    ok := true;
  }

  /** Versioned from the payload, platform-managed from the live tree, before the modes. */
  function Assembled(payload: Files, live: Files, policy: Policy): Files {
    Overlay(Overlay(map[], payload, Selected(payload, policy, {Versioned})), live, Selected(live, policy, {Managed}))
  }

  /** The same paths, types and contents, whatever the modes. */
  ghost predicate UpToMode(a: Entries, b: Entries) {
    a.Keys == b.Keys && forall p <- a :: a[p].(mode := b[p].mode) == b[p]
  }

  /** The assembly as the code runs it; none where a step throws. */
  method Assemble(payload: Files, live: Files, policy: Policy, listed: Entries) returns (r: Option<Files>)
    requires WellFormed(payload) && WellFormed(live)
    requires NoSpecial(payload, policy, {Versioned}) && NoSpecial(live, policy, {Managed})
    ensures r.Some? <==>
              && Fits(Overlay(map[], payload, Selected(payload, policy, {Versioned})), live, Selected(live, policy, {Managed}))
              && listed.Keys <= Assembled(payload, live, policy).Keys
    ensures r.Some? ==> r.value == WithModes(Assembled(payload, live, policy), listed)
  {
    var staging := new Volume(map[]);
    FitsEmpty(payload, Selected(payload, policy, {Versioned}));
    var ok := CopyWorkspace(staging, payload, policy, {Versioned}, true);
    OnlyVersioned(payload, live, policy);
    ok := CopyWorkspace(staging, live, policy, {Managed}, false);
    if !ok { return None; }
    ok := ApplyManifestModes(staging, listed);
    r := if ok then Some(staging.nodes) else None;
  }

  lemma FitsEmpty(src: Files, paths: set<Path>)
    requires paths <= src.Keys
    ensures Fits(map[], src, paths)
  {
  }

  /** The versioned copy holds versioned paths only: their ancestors are versioned. */
  lemma OnlyVersioned(payload: Files, live: Files, policy: Policy)
    requires WellFormed(payload)
    ensures var copy := Overlay(map[], payload, Selected(payload, policy, {Versioned}));
            && copy.Keys == Selected(payload, policy, {Versioned})
            && copy.Keys !! Selected(live, policy, {Managed})
  {
    var chosen := Selected(payload, policy, {Versioned});
    forall q <- AllAncestors(chosen) ensures q in chosen {
      AncestorInTree(payload, chosen, q);
      var p :| p in chosen && q < p;
      ClassClosure(q, p, policy);
    }
  }

  // ------------------------------------------------------- what the stage consists of

  lemma ManagedNode(payload: Files, live: Files, policy: Policy, p: Path)
    requires WellFormed(payload) && WellFormed(live) && Classify(p, policy) == Managed
    ensures p in Assembled(payload, live, policy) <==> p in Selected(live, policy, {Managed})
    ensures p in Selected(live, policy, {Managed}) ==> Assembled(payload, live, policy)[p] == Copied(live[p])
  {
    OnlyVersioned(payload, live, policy);
    if p in AllAncestors(Selected(live, policy, {Managed})) {
      AncestorInTree(live, Selected(live, policy, {Managed}), p);
    }
  }

  lemma VersionedNode(payload: Files, live: Files, policy: Policy, p: Path)
    requires WellFormed(payload) && p in Selected(payload, policy, {Versioned})
    ensures p in Assembled(payload, live, policy) && Assembled(payload, live, policy)[p] == Copied(payload[p])
  {
  }

  lemma ModedEntry(p: Path, n: Node, mode: Mode, policy: Policy)
    requires Listable(n)
    ensures Listable(WithMode(n, mode)) && Listable(Copied(n))
    ensures EntryOf(p, WithMode(Copied(n), mode), policy) == EntryOf(p, n, policy).(mode := mode & PERMISSIONS)
  {
    hide Classify;
    MaskTwice(mode);
    match n
    case File(_, content) =>
      assert WithMode(Copied(n), mode) == File(mode & PERMISSIONS, content);
    case Dir(_) =>
      assert WithMode(Copied(n), mode) == Dir(mode & PERMISSIONS);
  }

  lemma MaskTwice(m: Mode)
    ensures m & PERMISSIONS & PERMISSIONS == m & PERMISSIONS
  {
  }

  lemma StagedManagedPath(payload: Files, live: Files, policy: Policy, listed: Entries, p: Path)
    requires WellFormed(payload) && WellFormed(live) && Manifestable(live, policy, {Managed})
    requires Manifestable(WithModes(Assembled(payload, live, policy), listed), policy, BOTH)
    ensures var l := Manifest(live, policy, {Managed});
            var part := Part(Manifest(WithModes(Assembled(payload, live, policy), listed), policy, BOTH), Managed);
            && (p in l <==> p in part) && (p in l ==> l[p].(mode := part[p].mode) == part[p])
  {
    hide Assembled, WellFormed;
    if Classify(p, policy) == Managed {
      SelectedListable(live, policy, {Managed});
      ManagedNode(payload, live, policy, p);
    }
  }

  /** The platform-managed part of whatever is staged is the live one, up to mode. */
  lemma StagedManaged(payload: Files, live: Files, policy: Policy, listed: Entries)
    requires WellFormed(payload) && WellFormed(live) && Manifestable(live, policy, {Managed})
    requires Manifestable(WithModes(Assembled(payload, live, policy), listed), policy, BOTH)
    ensures UpToMode(Manifest(live, policy, {Managed}),
                     Part(Manifest(WithModes(Assembled(payload, live, policy), listed), policy, BOTH), Managed))
  {
    hide WellFormed, Manifestable, Manifest, Assembled, WithModes, Part;
    var staged := WithModes(Assembled(payload, live, policy), listed);
    var l, part := Manifest(live, policy, {Managed}), Part(Manifest(staged, policy, BOTH), Managed);
    forall p: Path ensures (p in l <==> p in part) && (p in l ==> l[p].(mode := part[p].mode) == part[p]) {
      StagedManagedPath(payload, live, policy, listed, p);
    }
  }

  /** A mode whose write-cleared form fits the permission bits fits them itself. */
  lemma ModeFits(m: Mode, n: Mode)
    requires n & PERMISSIONS == ClearWrite(m)
    ensures m & PERMISSIONS == m
  {
  }

  /** What the payload check says of one path. */
  lemma SealedEntry(root: Option<Mode>, payload: Files, policy: Policy, s: Snapshot, p: Path)
    requires SealedExactly(root, payload, policy, s) && p in Table(s.rows)
    ensures p in payload && Classify(p, policy) in BOTH && Listable(payload[p])
    ensures Table(s.rows)[p] == EntryOf(p, payload[p], policy).(mode := Table(s.rows)[p].mode & PERMISSIONS)
  {
    var m := Table(s.rows);
    assert p in Manifest(payload, policy, BOTH);
    SelectedListable(payload, policy, BOTH);
    assert EntryOf(p, payload[p], policy) == Readonly(m[p]);
    ModeFits(m[p].mode, payload[p].mode);
  }

  lemma SealedKeys(root: Option<Mode>, payload: Files, policy: Policy, s: Snapshot)
    requires SealedExactly(root, payload, policy, s)
    ensures Table(s.rows).Keys == Selected(payload, policy, BOTH)
  {
    assert Manifest(payload, policy, BOTH).Keys == Selected(payload, policy, BOTH);
  }

  lemma AgreedManaged(root: Option<Mode>, payload: Files, live: Files, policy: Policy, s: Snapshot)
    requires SealedExactly(root, payload, policy, s) && Manifestable(live, policy, {Managed})
    requires UpToMode(Manifest(live, policy, {Managed}), Part(Table(s.rows), Managed))
    ensures Selected(live, policy, {Managed}) == Selected(payload, policy, {Managed})
  {
    var m, managed := Table(s.rows), Selected(live, policy, {Managed});
    SealedKeys(root, payload, policy, s);
    assert Manifest(live, policy, {Managed}).Keys == managed;
    forall p: Path ensures p in managed <==> p in Selected(payload, policy, {Managed}) {
      assert p in managed <==> p in Part(m, Managed);
      if p in m {
        hide SealedExactly, Manifestable, Manifest;
        SealedEntry(root, payload, policy, s, p);
      }
    }
  }

  lemma StageKeys(payload: Files, live: Files, policy: Policy)
    requires WellFormed(payload) && Selected(live, policy, {Managed}) == Selected(payload, policy, {Managed})
    ensures Assembled(payload, live, policy).Keys == Selected(payload, policy, BOTH)
  {
    var managed := Selected(live, policy, {Managed});
    OnlyVersioned(payload, live, policy);
    ListedClosed(payload, policy);
    assert managed <= Selected(payload, policy, BOTH);
    assert AllAncestors(managed) <= AllAncestors(Selected(payload, policy, BOTH));
    assert Selected(payload, policy, BOTH) == Selected(payload, policy, {Versioned}) + managed;
    hide Selected, AllAncestors, WellFormed;
  }

  /** When the live platform-managed entries agree with the sealed ones up to mode, the
      stage has exactly the sealed paths. */
  lemma AgreedStage(root: Option<Mode>, payload: Files, live: Files, policy: Policy, s: Snapshot)
    requires WellFormed(payload) && WellFormed(live) && SealedExactly(root, payload, policy, s)
    requires Manifestable(live, policy, {Managed})
    requires UpToMode(Manifest(live, policy, {Managed}), Part(Table(s.rows), Managed))
    ensures Selected(live, policy, {Managed}) == Selected(payload, policy, {Managed})
    ensures Assembled(payload, live, policy).Keys == Table(s.rows).Keys
  {
    hide *;
    SealedKeys(root, payload, policy, s);
    AgreedManaged(root, payload, live, policy, s);
    StageKeys(payload, live, policy);
  }

  lemma StagedManagedEntry(payload: Files, live: Files, policy: Policy, m: Entries, p: Path)
    requires WellFormed(payload) && WellFormed(live) && Manifestable(live, policy, {Managed})
    requires p in Part(m, Managed) && UpToMode(Manifest(live, policy, {Managed}), Part(m, Managed))
    requires m[p].mode & PERMISSIONS == m[p].mode
    ensures var staged := WithModes(Assembled(payload, live, policy), m);
            p in staged && Listable(staged[p]) && EntryOf(p, staged[p], policy) == m[p]
  {
    var l := Manifest(live, policy, {Managed});
    SelectedListable(live, policy, {Managed});
    assert p in l && l[p] == EntryOf(p, live[p], policy) && l[p].(mode := m[p].mode) == m[p];
    assert Classify(p, policy) == Managed;
    hide Manifest, Manifestable, UpToMode, Assembled, EntryOf, Classify, WellFormed, Part;
    ManagedNode(payload, live, policy, p);
    ModedEntry(p, live[p], m[p].mode, policy);
  }

  lemma StagedVersionedEntry(payload: Files, live: Files, policy: Policy, m: Entries, p: Path)
    requires WellFormed(payload) && p in m && p in payload && Classify(p, policy) == Versioned && Listable(payload[p])
    requires m[p] == EntryOf(p, payload[p], policy).(mode := m[p].mode & PERMISSIONS)
    ensures var staged := WithModes(Assembled(payload, live, policy), m);
            p in staged && Listable(staged[p]) && EntryOf(p, staged[p], policy) == m[p]
  {
    hide Assembled, EntryOf, Classify, WellFormed;
    VersionedNode(payload, live, policy, p);
    ModedEntry(p, payload[p], m[p].mode, policy);
  }

  lemma StagedEntry(root: Option<Mode>, payload: Files, live: Files, policy: Policy, s: Snapshot, p: Path)
    requires WellFormed(payload) && WellFormed(live) && SealedExactly(root, payload, policy, s)
    requires Manifestable(live, policy, {Managed}) && p in Table(s.rows)
    requires UpToMode(Manifest(live, policy, {Managed}), Part(Table(s.rows), Managed))
    ensures var staged := WithModes(Assembled(payload, live, policy), Table(s.rows));
            && p in staged && Listable(staged[p]) && EntryOf(p, staged[p], policy) == Table(s.rows)[p]
            && Classify(p, policy) in BOTH
  {
    hide WellFormed, SealedExactly, Manifestable, Manifest, UpToMode, Assembled, WithModes, Classify;
    SealedEntry(root, payload, policy, s, p);
    if Classify(p, policy) == Managed {
      StagedManagedEntry(payload, live, policy, Table(s.rows), p);
    } else {
      StagedVersionedEntry(payload, live, policy, Table(s.rows), p);
    }
  }

  /** Agreement up to mode is enough: the stage can be listed and lists as sealed. */
  lemma AgreedIsExact(root: Option<Mode>, payload: Files, live: Files, policy: Policy, s: Snapshot)
    requires WellFormed(payload) && WellFormed(live) && SealedExactly(root, payload, policy, s)
    requires Manifestable(live, policy, {Managed})
    requires UpToMode(Manifest(live, policy, {Managed}), Part(Table(s.rows), Managed))
    ensures var staged := WithModes(Assembled(payload, live, policy), Table(s.rows));
            Manifestable(staged, policy, BOTH) && Manifest(staged, policy, BOTH) == Table(s.rows)
  {
    var m := Table(s.rows);
    var staged := WithModes(Assembled(payload, live, policy), m);
    assert NoCollision(m.Keys, policy) by { SealedKeys(root, payload, policy, s); }
    AgreedStage(root, payload, live, policy, s);
    assert staged.Keys == m.Keys;
    hide WellFormed, SealedExactly, UpToMode, Assembled, WithModes, Table, Part;
    forall p <- m ensures Classify(p, policy) in BOTH && Listable(staged[p]) && EntryOf(p, staged[p], policy) == m[p] {
      StagedEntry(root, payload, live, policy, s, p);
    }
    ListsAs(staged, policy, m);
  }

  /** A tree of listable nodes in the listed classes lists as the map of its entries. */
  lemma ListsAs(f: Files, policy: Policy, m: Entries)
    requires f.Keys == m.Keys && NoCollision(m.Keys, policy)
    requires forall p <- m :: Classify(p, policy) in BOTH && Listable(f[p]) && EntryOf(p, f[p], policy) == m[p]
    ensures Manifestable(f, policy, BOTH) && Manifest(f, policy, BOTH) == m
  {
    hide Classify, EntryOf;
    assert Selected(f, policy, BOTH) == m.Keys;
  }

  /** Nothing at the stage blocks a directory the live copy needs. */
  lemma AgreedFits(root: Option<Mode>, payload: Files, live: Files, policy: Policy, s: Snapshot)
    requires WellFormed(payload) && WellFormed(live) && SealedExactly(root, payload, policy, s)
    requires Manifestable(live, policy, {Managed})
    requires UpToMode(Manifest(live, policy, {Managed}), Part(Table(s.rows), Managed))
    ensures Fits(Overlay(map[], payload, Selected(payload, policy, {Versioned})), live, Selected(live, policy, {Managed}))
  {
    var managed := Selected(live, policy, {Managed});
    AgreedStage(root, payload, live, policy, s);
    OnlyVersioned(payload, live, policy);
    hide SealedExactly, Manifestable, UpToMode, Manifest, Table, Part, Overlay;
    var copy := Overlay(map[], payload, Selected(payload, policy, {Versioned}));
    CopyWellFormed(payload, Selected(payload, policy, {Versioned}));
    forall p <- managed | p != [] ensures Clear(copy, if live[p].Dir? then p else p[..|p| - 1]) {
      NothingInTheWay(payload, live, policy, copy, p);
    }
  }

  lemma NothingInTheWay(payload: Files, live: Files, policy: Policy, copy: Files, p: Path)
    requires WellFormed(payload) && p in payload && p != [] && p in live && p !in copy
    requires copy == Overlay(map[], payload, Selected(payload, policy, {Versioned}))
    requires copy.Keys == Selected(payload, policy, {Versioned})
    ensures Clear(copy, if live[p].Dir? then p else p[..|p| - 1])
  {
    var x := if live[p].Dir? then p else p[..|p| - 1];
    forall q <- OnTheWay(x) | q in copy ensures copy[q].Dir? {
      AncestorsAre(q, x);
      assert q < p;
      assert payload[q].Dir?;
    }
  }

  /** Staging is exact if and only if the live platform-managed entries agree with the
      sealed ones up to mode: the assembly then succeeds and lists as the sealed
      manifest, so the target-hash check passes; otherwise it throws or differs. */
  lemma StagingIsExactIff(root: Option<Mode>, payload: Files, live: Files, policy: Policy, s: Snapshot)
    requires WellFormed(payload) && WellFormed(live) && SealedExactly(root, payload, policy, s)
    requires Manifestable(live, policy, {Managed})
    ensures var m, managed := Table(s.rows), Selected(live, policy, {Managed});
            var staged := WithModes(Assembled(payload, live, policy), m);
            UpToMode(Manifest(live, policy, {Managed}), Part(m, Managed)) <==>
              && Fits(Overlay(map[], payload, Selected(payload, policy, {Versioned})), live, managed)
              && m.Keys <= Assembled(payload, live, policy).Keys
              && Manifestable(staged, policy, BOTH) && Manifest(staged, policy, BOTH) == m
  {
    hide WellFormed, SealedExactly, Manifestable, Manifest, UpToMode, Fits, Part, Assembled, WithModes;
    var m := Table(s.rows);
    if UpToMode(Manifest(live, policy, {Managed}), Part(m, Managed)) {
      AgreedFits(root, payload, live, policy, s);
      AgreedStage(root, payload, live, policy, s);
      AgreedIsExact(root, payload, live, policy, s);
    } else if Manifestable(WithModes(Assembled(payload, live, policy), m), policy, BOTH) {
      StagedManaged(payload, live, policy, m);
    }
  }

  /** A validated proposal never fails the target check spuriously: no platform-managed
      failure against the base manifest, and a live tree that still lists as the base. */
  lemma ValidatedStagingIsExact(root: Option<Mode>, payload: Files, live: Files, policy: Policy, s: Snapshot,
                                base: Entries, changes: seq<Change>, limits: Limits, guarded: Path -> bool)
    requires WellFormed(payload) && WellFormed(live) && SealedExactly(root, payload, policy, s)
    requires Manifestable(live, policy, BOTH) && Manifest(live, policy, BOTH) == base
    requires IsDiff(changes, base, Table(s.rows))
    requires forall p: Path :: !Earned(ManagedChanged(p), changes, limits, guarded)
    ensures var staged := WithModes(Assembled(payload, live, policy), Table(s.rows));
            && Fits(Overlay(map[], payload, Selected(payload, policy, {Versioned})), live, Selected(live, policy, {Managed}))
            && Table(s.rows).Keys <= Assembled(payload, live, policy).Keys
            && Manifestable(staged, policy, BOTH) && Manifest(staged, policy, BOTH) == Table(s.rows)
  {
    hide *;
    NoManagedFailureIff(base, Table(s.rows), changes, limits, guarded);
    ManagedManifest(live, policy);
    SameUpToMode(Part(base, Managed));
    StagingIsExactIff(root, payload, live, policy, s);
  }

  lemma ManagedManifest(live: Files, policy: Policy)
    requires Manifestable(live, policy, BOTH)
    ensures Manifestable(live, policy, {Managed})
    ensures Manifest(live, policy, {Managed}) == Part(Manifest(live, policy, BOTH), Managed)
  {
    ManifestRestricts(live, policy, BOTH, {Managed});
    hide Manifest, Manifestable;
  }

  lemma SameUpToMode(a: Entries)
    ensures UpToMode(a, a)
  {
  }
}
