/**
 Building a manifest: the recursive listing and the path-identity check.
 */
module ManifestWalk {
  import opened Wrappers
  import opened PathPolicy
  import opened FileTree
  import opened TreeWalk

  // ------------------------------------------------------------ path identities

  /** A table from keys to the one path seen with that key. */
  ghost predicate Indexes(table: map<string, Path>, seen: seq<Path>, key: Path -> string) {
    && (forall p <- seen :: key(p) in table && table[key(p)] == p)
    && (forall k <- table :: table[k] in seen && key(table[k]) == k)
  }

  ghost predicate Unambiguous(paths: seq<Path>, key: Path -> string) {
    forall p <- paths, q <- paths :: key(p) == key(q) ==> p == q
  }

  lemma IndexNext(table: map<string, Path>, seen: seq<Path>, key: Path -> string, p: Path)
    requires Indexes(table, seen, key)
    ensures Indexes(table[key(p) := p], seen + [p], key) <==> (key(p) in table ==> table[key(p)] == p)
    ensures Unambiguous(seen + [p], key) <==> (key(p) in table ==> table[key(p)] == p)
  {
    assert p in seen + [p];
    if key(p) in table {
      assert table[key(p)] in seen && table[key(p)] in seen + [p];
    }
    forall q <- seen ensures q in seen + [p] {}
  }

  /** The loop over two tables: a path is refused when another path already has its
      Unicode normal form or its case-folded form. */
  method AssertNoPathIdentityCollisions(paths: seq<Path>, normalize: Path -> string, lower: string -> string) returns (ok: bool)
    ensures ok <==> Unambiguous(paths, p => lower(normalize(p)))
  {
    ghost var identity := (p: Path) => lower(normalize(p));
    var normalized: map<string, Path> := map[];
    var folded: map<string, Path> := map[];
    for n := 0 to |paths|
      invariant Indexes(normalized, paths[..n], normalize) && Indexes(folded, paths[..n], identity)
      invariant Unambiguous(paths[..n], identity)
    {
      var path := paths[n];
      assert paths[..n + 1] == paths[..n] + [path];
      IndexNext(normalized, paths[..n], normalize, path);
      IndexNext(folded, paths[..n], identity, path);
      var form := normalize(path);
      if form in normalized && normalized[form] != path {
        Ambiguous(paths, normalized[form], path, identity);
        return false;
      }
      normalized := normalized[form := path];
      var fold := lower(form);
      if fold in folded && folded[fold] != path {
        Ambiguous(paths, folded[fold], path, identity);
        return false;
      }
      folded := folded[fold := path];
    }
    assert paths[..|paths|] == paths;
    ok := true;
  }

  lemma Ambiguous(paths: seq<Path>, p: Path, q: Path, key: Path -> string)
    requires p in paths && q in paths && p != q && key(p) == key(q)
    ensures !Unambiguous(paths, key)
  {
  }

  // ----------------------------------------------------------------- the listing

  ghost predicate Linkless(f: Files, paths: set<Path>)
    requires paths <= f.Keys
  {
    forall p <- paths :: !f[p].Link?
  }

  /** The entries of some paths; only files and directories are ever listed. */
  function EntriesAt(f: Files, policy: Policy, paths: set<Path>): Entries
    requires paths <= f.Keys
  {
    map p | p in paths && Listable(f[p]) :: EntryOf(p, f[p], policy)
  }

  lemma EntriesJoin(f: Files, policy: Policy, a: set<Path>, b: set<Path>)
    requires a <= f.Keys && b <= f.Keys
    ensures EntriesAt(f, policy, a) + EntriesAt(f, policy, b) == EntriesAt(f, policy, a + b)
    ensures Linkless(f, a + b) <==> Linkless(f, a) && Linkless(f, b)
  {
  }

  lemma EntriesNone(f: Files, policy: Policy, classes: set<Class>)
    ensures EntriesAt(f, policy, {}) == map[] && Linkless(f, {}) && Safe(f, {}, policy, classes)
    ensures Chosen({}, policy, classes) == {}
  {
  }

  lemma EntriesOne(f: Files, policy: Policy, p: Path)
    requires p in f
    ensures Listable(f[p]) ==> EntriesAt(f, policy, {p}) == map[p := EntryOf(p, f[p], policy)]
    ensures Linkless(f, {p}) <==> !f[p].Link?
  {
  }

  /** One directory entry of the listing, and everything below it. */
  method ListChild(acc: Entries, f: Files, policy: Policy, classes: set<Class>, dir: Path, name: string)
    returns (r: Option<Entries>)
    requires WellFormed(f) && name in Names(f, dir) && Reached(dir, policy, classes)
    ensures var branch := Branches(f, dir, {name});
            && (r.Some? <==> Safe(f, branch, policy, classes) && Linkless(f, Chosen(branch, policy, classes)))
            && (r.Some? ==> r.value == acc + EntriesAt(f, policy, Chosen(branch, policy, classes)))
    decreases Under(f, dir), 0
  {
    hide WellFormed, Safe, Visited, Reached, Linkless, EntriesAt, Branches, Chosen;
    var p := dir + [name];
    ghost var below := Under(f, p);
    OneBranch(f, dir, name);
    ChildVisited(dir, name, policy, classes);
    ChosenPlus(below, p, policy, classes);
    if f[p].Special? {
      UnsafeAt(f, below + {p}, p, policy, classes);
      return None;
    }
    SafePlus(f, below, p, policy, classes);
    EntriesNone(f, policy, classes);
    EntriesOne(f, policy, p);
    ghost var own := if Classify(p, policy) in classes then {p} else {};
    EntriesJoin(f, policy, own, Chosen(below, policy, classes));
    assert own + Chosen(below, policy, classes) == Chosen(below, policy, classes) + own;
    var entries := acc;
    if Classify(p, policy) in classes {
      if f[p].Link? { return None; }
      entries := entries[p := EntryOf(p, f[p], policy)];
      assert entries == acc + map[p := EntryOf(p, f[p], policy)];
    }
    assert entries == acc + EntriesAt(f, policy, own);
    if f[p].Dir? && (Classify(p, policy) != Ignored || Ignored in classes) {
      assert below < Under(f, dir);
      r := List(entries, f, policy, classes, p);
    } else {
      if f[p].Dir? { SkippedBranch(f, p, policy, classes); } else { LeafBranch(f, p); }
      r := Some(entries);
    }
  }

  /** The listing below one directory, its entries in any order. */
  method List(acc: Entries, f: Files, policy: Policy, classes: set<Class>, dir: Path) returns (r: Option<Entries>)
    requires WellFormed(f) && Reached(dir, policy, classes)
    ensures var chosen := Chosen(Under(f, dir), policy, classes);
            && (r.Some? <==> Safe(f, Under(f, dir), policy, classes) && Linkless(f, chosen))
            && (r.Some? ==> r.value == acc + EntriesAt(f, policy, chosen))
    decreases Under(f, dir), 1
  {
    hide WellFormed, Safe, Reached, Linkless, EntriesAt, Under, Branches, Names, Chosen;
    var todo := Names(f, dir);
    ghost var done: set<string> := {};
    AllBranches(f, dir);
    NoBranches(f, dir);
    EntriesNone(f, policy, classes);
    var entries := acc;
    while todo != {}
      invariant done + todo == Names(f, dir) && done !! todo
      invariant Safe(f, Branches(f, dir, done), policy, classes)
      invariant Linkless(f, Chosen(Branches(f, dir, done), policy, classes))
      invariant entries == acc + EntriesAt(f, policy, Chosen(Branches(f, dir, done), policy, classes))
      decreases |todo|
    {
      var name :| name in todo;
      r := ListChild(entries, f, policy, classes, dir, name);
      ghost var before, next := Branches(f, dir, done), Branches(f, dir, {name});
      if r.None? {
        BranchesGrow(f, dir, {name}, Names(f, dir));
        ListingFails(f, next, Under(f, dir), policy, classes);
        return;
      }
      BranchesJoin(f, dir, done, name);
      ListingJoins(acc, f, before, next, policy, classes);
      entries := r.value;
      done, todo := done + {name}, todo - {name};
    }
    assert done == Names(f, dir);
    r := Some(entries);
  }

  lemma ListingJoins(acc: Entries, f: Files, a: set<Path>, b: set<Path>, policy: Policy, classes: set<Class>)
    requires a <= f.Keys && b <= f.Keys
    ensures Safe(f, a + b, policy, classes) <==> Safe(f, a, policy, classes) && Safe(f, b, policy, classes)
    ensures var ca, cb, cab := Chosen(a, policy, classes), Chosen(b, policy, classes), Chosen(a + b, policy, classes);
            && (Linkless(f, cab) <==> Linkless(f, ca) && Linkless(f, cb))
            && acc + EntriesAt(f, policy, ca) + EntriesAt(f, policy, cb) == acc + EntriesAt(f, policy, cab)
  {
    var ca, cb := Chosen(a, policy, classes), Chosen(b, policy, classes);
    ChosenJoin(a, b, policy, classes);
    EntriesJoin(f, policy, ca, cb);
    hide EntriesAt, Linkless, Chosen;
  }

  lemma ListingFails(f: Files, part: set<Path>, all: set<Path>, policy: Policy, classes: set<Class>)
    requires part <= all <= f.Keys
    ensures Safe(f, all, policy, classes) ==> Safe(f, part, policy, classes)
    ensures Linkless(f, Chosen(all, policy, classes)) ==> Linkless(f, Chosen(part, policy, classes))
  {
  }

  lemma ChosenJoin(a: set<Path>, b: set<Path>, policy: Policy, classes: set<Class>)
    ensures Chosen(a + b, policy, classes) == Chosen(a, policy, classes) + Chosen(b, policy, classes)
  {
  }

  /** The paths of a listing, as the list the collision check receives. */
  method PathsOf(entries: Entries) returns (paths: seq<Path>)
    ensures forall p :: p in paths <==> p in entries
  {
    paths := [];
    var todo := entries.Keys;
    while todo != {}
      invariant todo <= entries.Keys
      invariant forall p :: p in paths <==> p in entries.Keys - todo
      decreases |todo|
    {
      var p :| p in todo;
      paths, todo := paths + [p], todo - {p};
    }
  }

  /** The manifest: built exactly when it is defined, and then it is the manifest. */
  method BuildManifest(f: Files, policy: Policy, classes: set<Class>, normalize: Path -> string, lower: string -> string)
    returns (r: Option<Entries>)
    requires WellFormed(f) && (forall p :: policy.identity(p) == lower(normalize(p)))
    ensures r.Some? <==> Manifestable(f, policy, classes)
    ensures r.Some? ==> r.value == Manifest(f, policy, classes)
  {
    assert Under(f, []) == f.Keys;
    assert Chosen(f.Keys, policy, classes) == Selected(f, policy, classes);
    hide WellFormed, Under, Chosen, Unambiguous, NoCollision, EntriesAt, Manifest;
    r := List(map[], f, policy, classes, []);
    if r.None? { return; }
    ListedIsManifest(f, policy, classes);
    var paths := PathsOf(r.value);
    var ok := AssertNoPathIdentityCollisions(paths, normalize, lower);
    CollisionFree(paths, r.value.Keys, p => lower(normalize(p)), policy);
    if !ok { r := None; }
  }

  lemma CollisionFree(paths: seq<Path>, listed: set<Path>, key: Path -> string, policy: Policy)
    requires (forall p :: p in paths <==> p in listed) && (forall p :: policy.identity(p) == key(p))
    ensures Unambiguous(paths, key) <==> NoCollision(listed, policy)
  {
  }

  lemma ListedIsManifest(f: Files, policy: Policy, classes: set<Class>)
    requires NoSpecial(f, policy, classes) && NoLink(f, policy, classes)
    ensures EntriesAt(f, policy, Selected(f, policy, classes)).Keys == Selected(f, policy, classes)
    ensures Manifestable(f, policy, classes) ==> EntriesAt(f, policy, Selected(f, policy, classes)) == Manifest(f, policy, classes)
  {
    forall p <- Selected(f, policy, classes) ensures Listable(f[p]) { SelectedVisited(p, policy, classes); }
  }
}
