/**
 The difference of two manifests, and the static verdict over a candidate's changes.
 */
module Changes {
  import opened Wrappers
  import opened PathPolicy
  import opened FileTree

  datatype Change = Change(path: Path, before: Option<Entry>, after: Option<Entry>)

  function Lookup(m: Entries, p: Path): Option<Entry> { if p in m then Some(m[p]) else None }

  function ChangeAt(before: Entries, after: Entries, p: Path): Change { Change(p, Lookup(before, p), Lookup(after, p)) }

  /** Exactly the differing paths, each once, in some order. */
  ghost predicate IsDiff(changes: seq<Change>, before: Entries, after: Entries) {
    && (forall c <- changes :: c == ChangeAt(before, after, c.path) && c.before != c.after)
    && (forall p <- before.Keys + after.Keys :: Lookup(before, p) != Lookup(after, p) ==> ChangeAt(before, after, p) in changes)
    && (forall i, k :: 0 <= i < k < |changes| ==> changes[i].path != changes[k].path)
  }

  method DiffManifests(before: Entries, after: Entries) returns (changes: seq<Change>)
    ensures IsDiff(changes, before, after)
  {
    changes := [];
    var todo := before.Keys + after.Keys;
    while todo != {}
      invariant todo <= before.Keys + after.Keys
      invariant forall c <- changes :: c == ChangeAt(before, after, c.path) && c.before != c.after && c.path !in todo
      invariant forall p <- before.Keys + after.Keys - todo ::
                  Lookup(before, p) != Lookup(after, p) ==> ChangeAt(before, after, p) in changes
      invariant forall i, k :: 0 <= i < k < |changes| ==> changes[i].path != changes[k].path
      decreases |todo|
    {
      var p :| p in todo;
      var change := ChangeAt(before, after, p);
      if change.before != change.after {
        assert forall c <- changes :: c.path != p;
        changes := changes + [change];
      }
      todo := todo - {p};
    }
  }

  function Patched(m: Entries, c: Change): Entries {
    match c.after
    case Some(entry) => m[c.path := entry]
    case None => m - {c.path}
  }

  function Patch(m: Entries, changes: seq<Change>): Entries {
    if changes == [] then m else Patched(Patch(m, changes[..|changes| - 1]), changes[|changes| - 1])
  }

  ghost predicate Touches(changes: seq<Change>, p: Path) { exists c <- changes :: c.path == p }

  lemma PatchedAt(m: Entries, c: Change, p: Path)
    ensures Lookup(Patched(m, c), p) == if p == c.path then c.after else Lookup(m, p)
  {
  }

  lemma {:induction false} PatchAt(m: Entries, changes: seq<Change>, p: Path)
    requires forall i, k :: 0 <= i < k < |changes| ==> changes[i].path != changes[k].path
    ensures !Touches(changes, p) ==> Lookup(Patch(m, changes), p) == Lookup(m, p)
    ensures forall c <- changes :: c.path == p ==> Lookup(Patch(m, changes), p) == c.after
  {
    hide Patched, Lookup;
    if changes != [] {
      var init, last := changes[..|changes| - 1], changes[|changes| - 1];
      PatchAt(m, init, p);
      PatchedAt(Patch(m, init), last, p);
      assert changes == init + [last] && last in changes;
      forall c <- init ensures c in changes && c.path != last.path {}
    }
  }

  /** The difference loses nothing: patching the old manifest with it gives the new one. */
  lemma PatchDiff(before: Entries, after: Entries, changes: seq<Change>)
    requires IsDiff(changes, before, after)
    ensures Patch(before, changes) == after
    ensures changes == [] <==> before == after
  {
    forall p: Path ensures Lookup(Patch(before, changes), p) == Lookup(after, p) {
      PatchAt(before, changes, p);
      if Lookup(before, p) != Lookup(after, p) { assert ChangeAt(before, after, p) in changes; }
    }
    SameLookups(Patch(before, changes), after);
    if changes == [] { SameLookups(before, after); }
  }

  lemma SameLookups(a: Entries, b: Entries)
    requires forall p: Path :: Lookup(a, p) == Lookup(b, p)
    ensures a == b
  {
    forall p: Path ensures p in a <==> p in b { assert Lookup(a, p) == Lookup(b, p); }
    forall p <- a ensures a[p] == b[p] { assert Lookup(a, p) == Lookup(b, p); }
  }

  // ------------------------------------------------------------ the static verdict

  datatype Limits = Limits(maxFiles: nat, maxBytes: nat, maxSingleFile: nat)
  datatype Failure = FileBudget | ByteBudget | ManagedChanged(path: Path) | ProtectedChanged(path: Path) | FileTooLarge(path: Path)

  function Size(e: Option<Entry>): nat { if e.Some? && !e.value.isDir then |e.value.content| else 0 }

  predicate IsFile(e: Option<Entry>) { e.Some? && !e.value.isDir }

  function FileCount(changes: seq<Change>): nat {
    if changes == [] then 0
    else FileCount(changes[..|changes| - 1])
         + if IsFile(changes[|changes| - 1].before) || IsFile(changes[|changes| - 1].after) then 1 else 0
  }

  function ByteCount(changes: seq<Change>): nat {
    if changes == [] then 0
    else
      var c := changes[|changes| - 1];
      ByteCount(changes[..|changes| - 1]) + if Size(c.before) < Size(c.after) then Size(c.after) else Size(c.before)
  }

  predicate InClass(e: Option<Entry>, c: Class) { e.Some? && e.value.pathClass == c }

  predicate TouchesManaged(c: Change) { InClass(c.before, Managed) || InClass(c.after, Managed) }

  /** The failures a set of changes earns. */
  ghost predicate Earned(failure: Failure, changes: seq<Change>, limits: Limits, guarded: Path -> bool) {
    match failure
    case FileBudget => FileCount(changes) > limits.maxFiles
    case ByteBudget => ByteCount(changes) > limits.maxBytes
    case ManagedChanged(p) => exists c <- changes :: c.path == p && TouchesManaged(c)
    case ProtectedChanged(p) => exists c <- changes :: c.path == p && guarded(p)
    case FileTooLarge(p) => exists c <- changes :: c.path == p && IsFile(c.after) && Size(c.after) > limits.maxSingleFile
  }

  method CountChanges(changes: seq<Change>) returns (files: nat, bytes: nat)
    ensures files == FileCount(changes) && bytes == ByteCount(changes)
  {
    files, bytes := 0, 0;
    for n := 0 to |changes|
      invariant files == FileCount(changes[..n]) && bytes == ByteCount(changes[..n])
    {
      var c := changes[n];
      assert changes[..n + 1][..n] == changes[..n];
      if IsFile(c.before) || IsFile(c.after) { files := files + 1; }
      bytes := bytes + if Size(c.before) < Size(c.after) then Size(c.after) else Size(c.before);
    }
    assert changes[..|changes|] == changes;
  }

  lemma EarnedLater(failure: Failure, changes: seq<Change>, c: Change, limits: Limits, guarded: Path -> bool)
    requires !failure.FileBudget? && !failure.ByteBudget?
    ensures Earned(failure, changes + [c], limits, guarded) <==>
            Earned(failure, changes, limits, guarded) || Earned(failure, [c], limits, guarded)
  {
    assert c in changes + [c] && c in [c];
    forall d <- changes ensures d in changes + [c] {}
  }

  /** The loop over the changes, each failure reported once. */
  method ValidateCandidate(base: Entries, candidate: Entries, limits: Limits, guarded: Path -> bool)
    returns (changes: seq<Change>, failures: set<Failure>)
    ensures IsDiff(changes, base, candidate)
    ensures forall f: Failure :: f in failures <==> Earned(f, changes, limits, guarded)
  {
    changes := DiffManifests(base, candidate);
    failures := {};
    for n := 0 to |changes|
      invariant forall f: Failure :: f in failures <==>
                  !f.FileBudget? && !f.ByteBudget? && Earned(f, changes[..n], limits, guarded)
    {
      var c := changes[n];
      assert changes[..n + 1] == changes[..n] + [c];
      forall f: Failure | !f.FileBudget? && !f.ByteBudget?
        ensures Earned(f, changes[..n + 1], limits, guarded) <==>
                Earned(f, changes[..n], limits, guarded) || Earned(f, [c], limits, guarded)
      {
        EarnedLater(f, changes[..n], c, limits, guarded);
      }
      failures := failures + FailuresAt(c, limits, guarded);
      FailuresAtEarned(c, limits, guarded);
    }
    assert changes[..|changes|] == changes;
    var files, bytes := CountChanges(changes);
    if files > limits.maxFiles { failures := failures + {FileBudget}; }
    if bytes > limits.maxBytes { failures := failures + {ByteBudget}; }
  }

  function FailuresAt(c: Change, limits: Limits, guarded: Path -> bool): set<Failure> {
    (if TouchesManaged(c) then {ManagedChanged(c.path)} else {})
    + (if guarded(c.path) then {ProtectedChanged(c.path)} else {})
    + (if IsFile(c.after) && Size(c.after) > limits.maxSingleFile then {FileTooLarge(c.path)} else {})
  }

  lemma FailuresAtEarned(c: Change, limits: Limits, guarded: Path -> bool)
    ensures forall f: Failure :: f in FailuresAt(c, limits, guarded) <==>
              !f.FileBudget? && !f.ByteBudget? && Earned(f, [c], limits, guarded)
  {
    assert c in [c];
  }

  function Part(m: Entries, c: Class): Entries { map p | p in m && m[p].pathClass == c :: m[p] }

  /** A verdict without platform-managed failures means the platform-managed parts are
      equal, entry for entry, modes included; and conversely. */
  lemma NoManagedFailureIff(base: Entries, candidate: Entries, changes: seq<Change>, limits: Limits, guarded: Path -> bool)
    requires IsDiff(changes, base, candidate)
    ensures (forall p: Path :: !Earned(ManagedChanged(p), changes, limits, guarded)) <==> Part(base, Managed) == Part(candidate, Managed)
  {
    if Part(base, Managed) == Part(candidate, Managed) {
      forall p: Path ensures !Earned(ManagedChanged(p), changes, limits, guarded) {
        forall c <- changes | c.path == p ensures !TouchesManaged(c) {
          assert p in Part(base, Managed) <==> p in Part(candidate, Managed);
        }
      }
    } else if forall p: Path :: !Earned(ManagedChanged(p), changes, limits, guarded) {
      forall p: Path ensures Lookup(Part(base, Managed), p) == Lookup(Part(candidate, Managed), p) {
        assert !Earned(ManagedChanged(p), changes, limits, guarded);
        if Lookup(base, p) != Lookup(candidate, p) { assert ChangeAt(base, candidate, p) in changes; }
      }
      SameLookups(Part(base, Managed), Part(candidate, Managed));
    }
  }
}
