/**
 A directory tree, the manifest the code builds from it, and the copy by path
 class.  A tree is the map from relative paths to nodes, without its root.
 */
module FileTree {
  import opened Wrappers
  import opened PathPolicy

  type Mode = bv12
  const PERMISSIONS: Mode := 0x1FF
  const WRITE_BITS: Mode := 0x092
  const PRIVATE_MODE: Mode := 0x1C0

  datatype Node = File(mode: Mode, content: string) | Dir(mode: Mode) | Link(target: string) | Special
  type Files = map<Path, Node>

  /** Every node hangs below directories. */
  ghost predicate WellFormed(f: Files) {
    [] !in f && (forall p <- f, q: Path | q < p && q != [] :: q in f && f[q].Dir?)
  }

  datatype Entry = Entry(isDir: bool, mode: Mode, content: string, pathClass: Class)
  type Entries = map<Path, Entry>

  predicate Listable(n: Node) { n.File? || n.Dir? }

  function EntryOf(p: Path, n: Node, policy: Policy): Entry
    requires Listable(n)
  {
    Entry(n.Dir?, n.mode & PERMISSIONS, if n.File? then n.content else "", Classify(p, policy))
  }

  /** The paths of the given classes. */
  function Selected(f: Files, policy: Policy, classes: set<Class>): set<Path> {
    set p | p in f && Classify(p, policy) in classes
  }

  /** Whether the walk reaches a path: unless asked to, it does not descend into ignored directories. */
  ghost predicate Visited(p: Path, policy: Policy, classes: set<Class>) {
    Ignored in classes || forall q: Path | q < p && q != [] :: Classify(q, policy) != Ignored
  }

  /** The walk meets no device, socket or pipe, whatever its class. */
  ghost predicate NoSpecial(f: Files, policy: Policy, classes: set<Class>) {
    forall p <- f :: Visited(p, policy, classes) ==> !f[p].Special?
  }

  ghost predicate NoLink(f: Files, policy: Policy, classes: set<Class>) {
    forall p <- Selected(f, policy, classes) :: !f[p].Link?
  }

  /** No two different listed paths that the host would identify. */
  ghost predicate NoCollision(paths: set<Path>, policy: Policy) {
    forall p <- paths, q <- paths :: policy.identity(p) == policy.identity(q) ==> p == q
  }

  ghost predicate Manifestable(f: Files, policy: Policy, classes: set<Class>) {
    && NoSpecial(f, policy, classes) && NoLink(f, policy, classes)
    && NoCollision(Selected(f, policy, classes), policy)
  }

  /** A selected path is always reached by the walk. */
  lemma SelectedVisited(p: Path, policy: Policy, classes: set<Class>)
    requires Classify(p, policy) in classes
    ensures Visited(p, policy, classes)
  {
    forall q: Path | q < p && q != [] ensures Ignored in classes || Classify(q, policy) != Ignored {
      ClassClosure(q, p, policy);
    }
  }

  lemma SelectedListable(f: Files, policy: Policy, classes: set<Class>)
    requires Manifestable(f, policy, classes)
    ensures forall p <- Selected(f, policy, classes) :: Listable(f[p])
  {
    forall p <- Selected(f, policy, classes) ensures Listable(f[p]) { SelectedVisited(p, policy, classes); }
  }

  /** The manifest of a tree over a set of classes; its sorted listing is canonical,
      so the map stands for the list and for its hash. */
  ghost function Manifest(f: Files, policy: Policy, classes: set<Class>): (m: Entries)
    requires Manifestable(f, policy, classes)
  {
    SelectedListable(f, policy, classes);
    map p | p in Selected(f, policy, classes) :: EntryOf(p, f[p], policy)
  }

  /** A manifest of fewer classes is the restriction of the larger one. */
  lemma ManifestRestricts(f: Files, policy: Policy, classes: set<Class>, fewer: set<Class>)
    requires Manifestable(f, policy, classes) && fewer <= classes
    ensures Manifestable(f, policy, fewer)
    ensures Manifest(f, policy, fewer) == map p | p in Manifest(f, policy, classes) && Manifest(f, policy, classes)[p].pathClass in fewer
                                            :: Manifest(f, policy, classes)[p]
  {
    assert Selected(f, policy, fewer) <= Selected(f, policy, classes);
  }

  // ------------------------------------------------------------------- the copy

  /** A copied node keeps its permission bits and nothing else of its mode. */
  function Copied(n: Node): Node {
    match n
    case File(mode, content) => File(mode & PERMISSIONS, content)
    case Dir(mode) => Dir(mode & PERMISSIONS)
    case _ => n
  }

  /** The directories on the way to a path. */
  function Ancestors(p: Path): set<Path> { set k | 0 < k < |p| :: p[..k] }

  lemma AncestorsAre(q: Path, p: Path)
    ensures q in Ancestors(p) <==> q != [] && q < p
  {
    if q != [] && q < p { assert p[..|q|] == q; }
  }

  function AllAncestors(paths: set<Path>): set<Path> { set p, q | p in paths && q in Ancestors(p) :: q }

  /** The destination after copying the nodes at `paths` of `src` into it. */
  function Overlay(dst: Files, src: Files, paths: set<Path>): Files
    requires paths <= src.Keys
  {
    map p | p in dst.Keys + paths + AllAncestors(paths) ::
      if p in paths then Copied(src[p]) else if p in dst then dst[p] else Dir(PRIVATE_MODE)
  }

  lemma OverlayTwice(dst: Files, src: Files, a: set<Path>, b: set<Path>)
    requires a <= src.Keys && b <= src.Keys
    ensures Overlay(Overlay(dst, src, a), src, b) == Overlay(dst, src, a + b)
  {
    assert AllAncestors(a + b) == AllAncestors(a) + AllAncestors(b);
  }

  lemma CopyWellFormed(src: Files, chosen: set<Path>)
    requires WellFormed(src) && chosen <= src.Keys
    ensures WellFormed(Overlay(map[], src, chosen))
  {
    var copy := Overlay(map[], src, chosen);
    forall p <- copy, q: Path | q < p && q != [] ensures q in copy && copy[q].Dir? {
      CopiedAncestor(src, chosen, p, q);
    }
  }

  lemma AncestorInTree(f: Files, paths: set<Path>, q: Path)
    requires WellFormed(f) && paths <= f.Keys && q in AllAncestors(paths)
    ensures q in f && f[q].Dir? && exists p <- paths :: q < p
  {
    var p :| p in paths && q in Ancestors(p);
    AncestorsAre(q, p);
  }

  lemma CopySelection(src: Files, policy: Policy, classes: set<Class>)
    requires WellFormed(src) && NoSpecial(src, policy, classes)
    ensures var copy := Overlay(map[], src, Selected(src, policy, classes));
            && Selected(copy, policy, classes) == Selected(src, policy, classes) && NoSpecial(copy, policy, classes)
  {
    var chosen := Selected(src, policy, classes);
    var copy := Overlay(map[], src, chosen);
    forall q <- AllAncestors(chosen) ensures q in src { AncestorInTree(src, chosen, q); }
    forall p <- copy ensures !copy[p].Special? {
      if p in chosen { SelectedVisited(p, policy, classes); }
    }
  }

  /** Copying a set of classes, then listing the same classes, gives the source's own
      manifest of those classes; and the copy can be listed exactly when the source can. */
  lemma CopyRestricts(src: Files, policy: Policy, classes: set<Class>)
    requires WellFormed(src) && NoSpecial(src, policy, classes)
    ensures var copy := Overlay(map[], src, Selected(src, policy, classes));
            && WellFormed(copy)
            && (Manifestable(copy, policy, classes) <==> Manifestable(src, policy, classes))
            && (Manifestable(src, policy, classes) ==> Manifest(copy, policy, classes) == Manifest(src, policy, classes))
  {
    CopyWellFormed(src, Selected(src, policy, classes));
    CopySelection(src, policy, classes);
    hide WellFormed, NoSpecial, Manifestable, Manifest;
    CopiedListing(src, Overlay(map[], src, Selected(src, policy, classes)), policy, classes);
  }

  lemma CopiedAncestor(src: Files, chosen: set<Path>, p: Path, q: Path)
    requires WellFormed(src) && chosen <= src.Keys && p in Overlay(map[], src, chosen) && q < p && q != []
    ensures q in Overlay(map[], src, chosen) && Overlay(map[], src, chosen)[q].Dir?
  {
    var top: Path :| (top in chosen && p == top) || (top in chosen && p in Ancestors(top));
    AncestorsAre(p, top);
    AncestorsAre(q, top);
    assert q in AllAncestors(chosen);
  }

  lemma CopiedListing(src: Files, copy: Files, policy: Policy, classes: set<Class>)
    requires NoSpecial(src, policy, classes) && NoSpecial(copy, policy, classes)
    requires Selected(copy, policy, classes) == Selected(src, policy, classes)
    requires forall p <- Selected(src, policy, classes) :: copy[p] == Copied(src[p])
    ensures Manifestable(copy, policy, classes) <==> Manifestable(src, policy, classes)
    ensures Manifestable(src, policy, classes) ==> Manifest(copy, policy, classes) == Manifest(src, policy, classes)
  {
    forall p <- Selected(src, policy, classes) ensures copy[p].Link? == src[p].Link? {}
    if Manifestable(src, policy, classes) {
      SelectedListable(src, policy, classes);
      forall p <- Selected(src, policy, classes) ensures EntryOf(p, copy[p], policy) == EntryOf(p, src[p], policy) {}
    }
  }

  /** A set of paths that contains the directories on the way to them. */
  lemma OverlayClosed(src: Files, paths: set<Path>)
    requires paths <= src.Keys && AllAncestors(paths) <= paths
    ensures Overlay(map[], src, paths) == map p | p in paths :: Copied(src[p])
  {
  }

  lemma ListedClosed(src: Files, policy: Policy)
    requires WellFormed(src)
    ensures var both := Selected(src, policy, {Versioned, Managed}); AllAncestors(both) <= both
  {
    var both := Selected(src, policy, {Versioned, Managed});
    forall q <- AllAncestors(both) ensures q in both {
      AncestorInTree(src, both, q);
      var p :| p in both && q < p;
      ClassClosure(q, p, policy);
    }
  }

  /** Copying the versioned paths and then the platform-managed ones into the same
      place equals one copy of both, which is the tree without its ignored paths. */
  lemma CopyTwice(src: Files, policy: Policy)
    requires WellFormed(src)
    ensures Overlay(Overlay(map[], src, Selected(src, policy, {Versioned})), src, Selected(src, policy, {Managed}))
            == Overlay(map[], src, Selected(src, policy, {Versioned, Managed}))
    ensures Overlay(map[], src, Selected(src, policy, {Versioned, Managed}))
            == map p | p in Selected(src, policy, {Versioned, Managed}) :: Copied(src[p])
  {
    var v, m := Selected(src, policy, {Versioned}), Selected(src, policy, {Managed});
    OverlayTwice(map[], src, v, m);
    assert Selected(src, policy, {Versioned, Managed}) == v + m;
    ListedClosed(src, policy);
    OverlayClosed(src, v + m);
  }
}
