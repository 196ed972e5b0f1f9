/**
 The recursive walks over a directory tree: copying by class into a volume, and
 listing a manifest, each proved against its definition in `FileTree`.
 */
module TreeWalk {
  import opened Wrappers
  import opened PathPolicy
  import opened FileTree

  /** A writable directory tree. */
  class Volume {
    var nodes: Files

    constructor (nodes: Files)
      ensures this.nodes == nodes
    {
      this.nodes := nodes;
    }

    /** mkdir -p: existing directories are left alone, anything else in the way is an error. */
    method MakeDirectories(p: Path) returns (ok: bool)
      modifies this
      ensures ok <==> Clear(old(nodes), p)
      ensures ok ==> nodes == WithDirectories(old(nodes), p)
      decreases |p|
    {
      if p == [] {
        return true;
      }
      OnTheWayGrows(p);
      ok := MakeDirectories(p[..|p| - 1]);
      if !ok { return; }
      if p in nodes {
        ok := nodes[p].Dir?;
      } else {
        nodes := nodes[p := Dir(PRIVATE_MODE)];
      }
    }
  }

  /** A path and the directories on the way to it, without the root. */
  function OnTheWay(p: Path): set<Path> { Ancestors(p) + if p == [] then {} else {p} }

  lemma OnTheWayGrows(p: Path)
    requires p != []
    ensures OnTheWay(p) == OnTheWay(p[..|p| - 1]) + {p} && p !in OnTheWay(p[..|p| - 1])
  {
    var init := p[..|p| - 1];
    forall q: Path ensures q in OnTheWay(p) <==> q in OnTheWay(init) + {p} {
      AncestorsAre(q, p);
      AncestorsAre(q, init);
      if q < p && |q| < |init| { assert q == init[..|q|]; }
    }
    AncestorsAre(p, init);
  }

  predicate Clear(f: Files, p: Path) { forall q <- OnTheWay(p) | q in f :: f[q].Dir? }

  function WithDirectories(f: Files, p: Path): Files {
    map q | q in f.Keys + OnTheWay(p) :: if q in f then f[q] else Dir(PRIVATE_MODE)
  }

  // ------------------------------------------------------------------ one subtree

  function Under(f: Files, dir: Path): (r: set<Path>)
    ensures r <= f.Keys
  {
    set p | p in f && dir < p
  }

  /** The part of the tree below `dir` whose next segment is in `names`. */
  function Branches(f: Files, dir: Path, names: set<string>): (r: set<Path>)
    ensures r <= f.Keys
  {
    set p | p in f && dir < p && p[|dir|] in names
  }

  function Names(f: Files, dir: Path): set<string> { set p | p in f && dir < p && |p| == |dir| + 1 :: p[|dir|] }

  lemma AllBranches(f: Files, dir: Path)
    requires WellFormed(f)
    ensures Branches(f, dir, Names(f, dir)) == Under(f, dir)
  {
    forall p <- Under(f, dir) ensures p[|dir|] in Names(f, dir) {
      var child := p[..|dir| + 1];
      assert child == p || child < p;
      assert child in f && dir < child && child[|dir|] == p[|dir|];
    }
  }

  lemma OneBranch(f: Files, dir: Path, name: string)
    requires WellFormed(f) && name in Names(f, dir)
    ensures dir + [name] in f && Branches(f, dir, {name}) == Under(f, dir + [name]) + {dir + [name]}
  {
    var child := dir + [name];
    var witnessed :| witnessed in f && dir < witnessed && |witnessed| == |dir| + 1 && witnessed[|dir|] == name;
    assert witnessed == child;
    forall p <- Branches(f, dir, {name}) ensures p == child || child < p {
      assert p[..|dir| + 1] == child;
    }
  }

  function Chosen(paths: set<Path>, policy: Policy, classes: set<Class>): (r: set<Path>)
    ensures r <= paths
  {
    set p | p in paths && Classify(p, policy) in classes
  }

  /** No special file is met on the walk over `paths`. */
  ghost predicate Safe(f: Files, paths: set<Path>, policy: Policy, classes: set<Class>)
    requires paths <= f.Keys
  {
    forall p <- paths :: Visited(p, policy, classes) ==> !f[p].Special?
  }

  /** No directory the copy needs is blocked by something else at the destination. */
  ghost predicate Fits(dst: Files, src: Files, paths: set<Path>)
    requires paths <= src.Keys
  {
    forall p <- paths | p != [] :: Clear(dst, if src[p].Dir? then p else p[..|p| - 1])
  }

  lemma ClearWith(f: Files, p: Path, x: Path)
    requires Clear(f, p)
    ensures Clear(WithDirectories(f, p), x) <==> Clear(f, x)
  {
  }

  lemma ClearOverlay(dst: Files, src: Files, paths: set<Path>, x: Path)
    requires paths <= src.Keys && OnTheWay(x) !! paths
    ensures Clear(Overlay(dst, src, paths), x) <==> Clear(dst, x)
  {
  }

  lemma FitsWith(dst: Files, p: Path, src: Files, paths: set<Path>)
    requires Clear(dst, p) && paths <= src.Keys
    ensures Fits(WithDirectories(dst, p), src, paths) <==> Fits(dst, src, paths)
  {
    forall x: Path ensures Clear(WithDirectories(dst, p), x) <==> Clear(dst, x) { ClearWith(dst, p, x); }
    hide Clear, WithDirectories;
  }

  lemma OtherBranch(src: Files, dir: Path, done: set<string>, p: Path, x: Path)
    requires dir < p && p[|dir|] !in done && x <= p
    ensures OnTheWay(x) !! Branches(src, dir, done)
  {
    forall q <- OnTheWay(x) ensures q !in Branches(src, dir, done) {
      AncestorsAre(q, x);
      assert q <= p;
      if |q| > |dir| { assert q[|dir|] == p[|dir|]; }
    }
  }

  lemma FitsOther(dst: Files, src: Files, dir: Path, done: set<string>, name: string, policy: Policy, classes: set<Class>)
    requires name !in done
    ensures var before, next := Chosen(Branches(src, dir, done), policy, classes), Chosen(Branches(src, dir, {name}), policy, classes);
            Fits(Overlay(dst, src, before), src, next) <==> Fits(dst, src, next)
  {
    var before, next := Chosen(Branches(src, dir, done), policy, classes), Chosen(Branches(src, dir, {name}), policy, classes);
    forall p <- next | p != []
      ensures var x := if src[p].Dir? then p else p[..|p| - 1];
              Clear(Overlay(dst, src, before), x) <==> Clear(dst, x)
    {
      var x := if src[p].Dir? then p else p[..|p| - 1];
      OtherBranch(src, dir, done, p, x);
      ClearOverlay(dst, src, before, x);
    }
    hide Clear, Overlay;
  }

  lemma OverlayWithDirectory(dst: Files, src: Files, p: Path, paths: set<Path>)
    requires p in src && p != [] && paths <= src.Keys && (forall x <- paths :: p < x)
    ensures Overlay(WithDirectories(dst, p), src, paths)[p := Copied(src[p])] == Overlay(dst, src, paths + {p})
  {
    assert AllAncestors(paths + {p}) == AllAncestors(paths) + Ancestors(p);
  }

  lemma OverlayLeaf(dst: Files, src: Files, p: Path)
    requires p in src && p != []
    ensures WithDirectories(dst, p[..|p| - 1])[p := Copied(src[p])] == Overlay(dst, src, {p})
  {
    OnTheWayGrows(p);
    assert AllAncestors({p}) == Ancestors(p);
    assert Ancestors(p) == OnTheWay(p[..|p| - 1]) by { AncestorsAre(p, p); }
  }

  lemma LeafBranch(src: Files, p: Path)
    requires WellFormed(src) && p in src && !src[p].Dir? && p != []
    ensures Under(src, p) == {}
  {
  }

  lemma SkippedBranch(src: Files, p: Path, policy: Policy, classes: set<Class>)
    requires p != [] && Classify(p, policy) == Ignored && Ignored !in classes
    ensures Chosen(Under(src, p), policy, classes) == {} && Safe(src, Under(src, p), policy, classes)
  {
    forall x <- Under(src, p) ensures Classify(x, policy) == Ignored && !Visited(x, policy, classes) {
      ClassClosure(p, x, policy);
    }
  }

  lemma ChosenPlus(paths: set<Path>, p: Path, policy: Policy, classes: set<Class>)
    ensures Chosen(paths + {p}, policy, classes)
            == Chosen(paths, policy, classes) + if Classify(p, policy) in classes then {p} else {}
  {
  }

  /** The walk is at `dir`: it got there without passing an ignored directory it should skip. */
  ghost predicate Reached(dir: Path, policy: Policy, classes: set<Class>) {
    Ignored in classes || forall q: Path | q <= dir && q != [] :: Classify(q, policy) != Ignored
  }

  lemma ChildVisited(dir: Path, name: string, policy: Policy, classes: set<Class>)
    requires Reached(dir, policy, classes)
    ensures Visited(dir + [name], policy, classes)
    ensures Classify(dir + [name], policy) != Ignored || Ignored in classes ==> Reached(dir + [name], policy, classes)
  {
    forall q: Path | q < dir + [name] && q != [] ensures Ignored in classes || Classify(q, policy) != Ignored {
      assert q == dir[..|q|];
    }
  }

  lemma UnsafeAt(f: Files, paths: set<Path>, p: Path, policy: Policy, classes: set<Class>)
    requires paths <= f.Keys && p in paths && f[p].Special? && Visited(p, policy, classes)
    ensures !Safe(f, paths, policy, classes)
  {
  }

  lemma SafePlus(f: Files, paths: set<Path>, p: Path, policy: Policy, classes: set<Class>)
    requires paths <= f.Keys && p in f && !f[p].Special?
    ensures Safe(f, paths + {p}, policy, classes) <==> Safe(f, paths, policy, classes)
  {
  }

  lemma FitsLeaf(dst: Files, src: Files, p: Path)
    requires p in src && p != [] && !src[p].Dir?
    ensures Fits(dst, src, {p}) <==> Clear(dst, p[..|p| - 1])
  {
  }

  lemma FitsPlus(dst: Files, src: Files, paths: set<Path>, p: Path)
    requires paths <= src.Keys && p in src && p != [] && src[p].Dir?
    ensures Fits(dst, src, paths + {p}) <==> Fits(dst, src, paths) && Clear(dst, p)
  {
  }

  lemma NothingToDo(dst: Files, src: Files, policy: Policy, classes: set<Class>)
    ensures Fits(dst, src, {}) && Overlay(dst, src, {}) == dst && Safe(src, {}, policy, classes)
    ensures Chosen({}, policy, classes) == {}
  {
  }

  /** One entry of a directory: what the copy does at it and below it. */
  method CopyChild(dst: Volume, src: Files, policy: Policy, classes: set<Class>, dir: Path, name: string) returns (ok: bool)
    requires WellFormed(src) && name in Names(src, dir) && Reached(dir, policy, classes)
    modifies dst
    ensures var branch := Branches(src, dir, {name});
            && (ok <==> Safe(src, branch, policy, classes) && Fits(old(dst.nodes), src, Chosen(branch, policy, classes)))
            && (ok ==> dst.nodes == Overlay(old(dst.nodes), src, Chosen(branch, policy, classes)))
    decreases Under(src, dir), 1
  {
    hide WellFormed, Overlay, Safe, Fits, Clear, WithDirectories, Visited, Reached;
    var p := dir + [name];
    OneBranch(src, dir, name);
    ChildVisited(dir, name, policy, classes);
    ChosenPlus(Under(src, p), p, policy, classes);
    var cls := Classify(p, policy);
    if src[p].Special? {
      assert !Safe(src, Under(src, p) + {p}, policy, classes) by { UnsafeAt(src, Under(src, p) + {p}, p, policy, classes); }
      return false;
    }
    if src[p].Dir? {
      ok := CopyDirectory(dst, src, policy, classes, dir, p);
    } else {
      LeafBranch(src, p);
      NothingToDo(dst.nodes, src, policy, classes);
      SafePlus(src, {}, p, policy, classes);
      if cls in classes {
        ok := dst.MakeDirectories(dir);
        assert dir == p[..|p| - 1];
        FitsLeaf(old(dst.nodes), src, p);
        if ok {
          OverlayLeaf(old(dst.nodes), src, p);
          dst.nodes := dst.nodes[p := Copied(src[p])];
        }
        assert Chosen(Under(src, p) + {p}, policy, classes) == {p};
      } else {
        ok := true;
        assert Chosen(Under(src, p) + {p}, policy, classes) == {};
      }
    }
  }

  /** A directory entry: create it, walk into it unless it is skipped, then set its mode. */
  method CopyDirectory(dst: Volume, src: Files, policy: Policy, classes: set<Class>, dir: Path, p: Path) returns (ok: bool)
    requires WellFormed(src) && p in src && src[p].Dir? && dir < p && Visited(p, policy, classes)
    requires Classify(p, policy) != Ignored || Ignored in classes ==> Reached(p, policy, classes)
    modifies dst
    ensures var branch := Under(src, p) + {p};
            && (ok <==> Safe(src, branch, policy, classes) && Fits(old(dst.nodes), src, Chosen(branch, policy, classes)))
            && (ok ==> dst.nodes == Overlay(old(dst.nodes), src, Chosen(branch, policy, classes)))
    decreases Under(src, dir), 0
  {
    hide WellFormed, Overlay, Safe, Fits, Clear, WithDirectories, Visited, Reached;
    var cls := Classify(p, policy);
    ghost var before, chosen := dst.nodes, Chosen(Under(src, p), policy, classes);
    ChosenPlus(Under(src, p), p, policy, classes);
    SafePlus(src, Under(src, p), p, policy, classes);
    FitsPlus(before, src, chosen, p);
    assert cls !in classes ==> Chosen(Under(src, p) + {p}, policy, classes) == chosen;
    if cls in classes {
      ok := dst.MakeDirectories(p);
      if !ok { return; }
      FitsWith(before, p, src, chosen);
    }
    ghost var made := dst.nodes;
    if cls != Ignored || Ignored in classes {
      assert Under(src, p) < Under(src, dir) by { assert p in Under(src, dir) && p !in Under(src, p); }
      ok := Walk(dst, src, policy, classes, p);
    } else {
      ok := true;
      SkippedBranch(src, p, policy, classes);
      assert chosen == {};
      NothingToDo(made, src, policy, classes);
    }
    if ok && cls in classes {
      OverlayWithDirectory(before, src, p, chosen);
      dst.nodes := dst.nodes[p := Dir(src[p].mode & PERMISSIONS)];
    }
  }

  /** The walk below one directory, its entries in any order. */
  method Walk(dst: Volume, src: Files, policy: Policy, classes: set<Class>, dir: Path) returns (ok: bool)
    requires WellFormed(src) && Reached(dir, policy, classes)
    modifies dst
    ensures ok <==> Safe(src, Under(src, dir), policy, classes) &&
                    Fits(old(dst.nodes), src, Chosen(Under(src, dir), policy, classes))
    ensures ok ==> dst.nodes == Overlay(old(dst.nodes), src, Chosen(Under(src, dir), policy, classes))
    decreases Under(src, dir), 2
  {
    hide WellFormed, Overlay, Safe, Fits, Reached, Under, Branches, Names, Chosen;
    ghost var start := dst.nodes;
    var todo := Names(src, dir);
    ghost var done: set<string> := {};
    AllBranches(src, dir);
    NothingToDo(start, src, policy, classes);
    NoBranches(src, dir);
    while todo != {}
      invariant done + todo == Names(src, dir) && done !! todo
      invariant Safe(src, Branches(src, dir, done), policy, classes)
      invariant Fits(start, src, Chosen(Branches(src, dir, done), policy, classes))
      invariant dst.nodes == Overlay(start, src, Chosen(Branches(src, dir, done), policy, classes))
      decreases |todo|
    {
      var name :| name in todo;
      ghost var before, next := Branches(src, dir, done), Branches(src, dir, {name});
      ok := CopyChild(dst, src, policy, classes, dir, name);
      FitsOther(start, src, dir, done, name, policy, classes);
      if !ok {
        BranchesGrow(src, dir, {name}, Names(src, dir));
        PartsFail(start, src, next, Under(src, dir), policy, classes);
        return;
      }
      BranchesJoin(src, dir, done, name);
      PartsJoin(start, src, before, next, policy, classes);
      done, todo := done + {name}, todo - {name};
    }
    assert done == Names(src, dir);
    ok := true;
  }

  lemma NoBranches(f: Files, dir: Path)
    ensures Branches(f, dir, {}) == {}
  {
  }

  lemma BranchesGrow(f: Files, dir: Path, names: set<string>, more: set<string>)
    requires names <= more
    ensures Branches(f, dir, names) <= Branches(f, dir, more)
  {
  }

  lemma BranchesJoin(f: Files, dir: Path, names: set<string>, name: string)
    ensures Branches(f, dir, names + {name}) == Branches(f, dir, names) + Branches(f, dir, {name})
    ensures Branches(f, dir, names) <= f.Keys && Branches(f, dir, {name}) <= f.Keys
  {
  }

  lemma PartsFail(dst: Files, src: Files, part: set<Path>, all: set<Path>, policy: Policy, classes: set<Class>)
    requires part <= all <= src.Keys
    ensures Safe(src, all, policy, classes) ==> Safe(src, part, policy, classes)
    ensures Fits(dst, src, Chosen(all, policy, classes)) ==> Fits(dst, src, Chosen(part, policy, classes))
  {
  }

  lemma PartsJoin(dst: Files, src: Files, a: set<Path>, b: set<Path>, policy: Policy, classes: set<Class>)
    requires a <= src.Keys && b <= src.Keys
    ensures Safe(src, a + b, policy, classes) <==> Safe(src, a, policy, classes) && Safe(src, b, policy, classes)
    ensures var ca, cb, cab := Chosen(a, policy, classes), Chosen(b, policy, classes), Chosen(a + b, policy, classes);
            && (Fits(dst, src, cab) <==> Fits(dst, src, ca) && Fits(dst, src, cb))
            && Overlay(Overlay(dst, src, ca), src, cb) == Overlay(dst, src, cab)
  {
    var ca, cb := Chosen(a, policy, classes), Chosen(b, policy, classes);
    assert Chosen(a + b, policy, classes) == ca + cb;
    OverlayTwice(dst, src, ca, cb);
    hide Overlay, Clear;
  }

  /** The copy of a workspace by path class.  The destination starts empty or holds
      no path of the copied classes.  It succeeds unless it meets a special file or
      something blocks a directory it needs, and then has exactly overlaid the
      selected nodes. */
  method CopyWorkspace(dst: Volume, src: Files, policy: Policy, classes: set<Class>, clean: bool) returns (ok: bool)
    requires WellFormed(src)
    requires clean || dst.nodes.Keys !! Selected(src, policy, classes)
    modifies dst
    ensures var base := if clean then map[] else old(dst.nodes);
            && (ok <==> NoSpecial(src, policy, classes) && Fits(base, src, Selected(src, policy, classes)))
            && (ok ==> dst.nodes == Overlay(base, src, Selected(src, policy, classes)))
  {
    if clean {
      dst.nodes := map[];
    }
    assert Under(src, []) == src.Keys;
    assert Chosen(src.Keys, policy, classes) == Selected(src, policy, classes);
    ok := Walk(dst, src, policy, classes, []);
  }
}
