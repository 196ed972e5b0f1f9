/**
 Sealed payloads: a candidate tree stripped of its write bits, and the check that a
 payload is exactly the sealed manifest in that form.
 */
module Sealing {
  import opened Wrappers
  import opened PathPolicy
  import opened FileTree
  import opened TreeWalk
  import opened ManifestWalk

  /** A digest of a canonical listing, which determines it, or any other text. */
  datatype Digest = Digest(listing: Entries) | Foreign(text: string)
  datatype Row = Row(path: Path, entry: Entry)
  /** A stored manifest: its rows are a list, so a path may occur twice. */
  datatype Snapshot = Snapshot(schema: int, rows: seq<Row>, hash: Digest)

  const BOTH: set<Class> := {Versioned, Managed}

  function ClearWrite(m: Mode): Mode { m & !WRITE_BITS }

  function Readonly(e: Entry): Entry { e.(mode := ClearWrite(e.mode)) }

  /** The map a lookup table built from the rows ends up as: later rows win. */
  function Table(rows: seq<Row>): Entries {
    if rows == [] then map[] else Table(rows[..|rows| - 1])[rows[|rows| - 1].path := rows[|rows| - 1].entry]
  }

  ghost predicate DistinctRows(rows: seq<Row>) { forall i, k :: 0 <= i < k < |rows| ==> rows[i].path != rows[k].path }

  lemma {:induction false} TableSize(rows: seq<Row>)
    ensures |Table(rows)| <= |rows|
    ensures |Table(rows)| == |rows| <==> DistinctRows(rows)
    ensures forall p :: p in Table(rows) <==> exists i :: 0 <= i < |rows| && rows[i].path == p
  {
    if rows != [] {
      var init, last := rows[..|rows| - 1], rows[|rows| - 1];
      TableSize(init);
      assert rows == init + [last];
      assert Table(rows).Keys == Table(init).Keys + {last.path};
      if last.path in Table(init) {
        var i :| 0 <= i < |init| && init[i].path == last.path;
        assert rows[i].path == rows[|rows| - 1].path;
      } else {
        assert DistinctRows(init) ==> DistinctRows(rows);
      }
    }
  }

  lemma SubsetOfSize(a: set<Path>, b: set<Path>)
    requires a <= b && |a| >= |b|
    ensures a == b
  {
    assert |b - a| == |b| - |a|;
  }

  /** The root is a read-only directory, and what is listed below it is the stored
      manifest with exactly the write bits cleared. */
  ghost predicate SealedExactly(root: Option<Mode>, f: Files, policy: Policy, s: Snapshot) {
    && root.Some? && root.value & WRITE_BITS == 0
    && Manifestable(f, policy, BOTH)
    && s.schema == 2 && DistinctRows(s.rows) && s.hash == Digest(Table(s.rows))
    && Manifest(f, policy, BOTH) == map p | p in Table(s.rows) :: Readonly(Table(s.rows)[p])
  }

  method BuildTable(rows: seq<Row>) returns (table: Entries)
    ensures table == Table(rows)
  {
    table := map[];
    for n := 0 to |rows|
      invariant table == Table(rows[..n])
    {
      assert rows[..n + 1][..n] == rows[..n];
      table := table[rows[n].path := rows[n].entry];
    }
    assert rows[..|rows|] == rows;
  }

  lemma ModeBack(physical: Entry, expected: Entry)
    requires physical == Readonly(expected)
    ensures physical.(mode := expected.mode) == expected
  {
  }

  /** Every physical entry against its expected one; the intended mode goes back in. */
  method Normalize(physical: Entries, expected: Entries) returns (r: Option<Entries>)
    ensures r.Some? <==> forall p <- physical :: p in expected && physical[p] == Readonly(expected[p])
    ensures r.Some? ==> r.value == map p | p in physical && p in expected :: expected[p]
  {
    hide Readonly;
    var normalized: Entries := map[];
    var todo := physical.Keys;
    while todo != {}
      invariant todo <= physical.Keys
      invariant forall p <- physical.Keys - todo :: p in expected && physical[p] == Readonly(expected[p])
      invariant normalized == map p | p in physical && p !in todo && p in expected :: expected[p]
      decreases |todo|
    {
      var p :| p in todo;
      if p !in expected || physical[p] != Readonly(expected[p]) { return None; }
      ModeBack(physical[p], expected[p]);
      normalized := normalized[p := physical[p].(mode := expected[p].mode)];
      todo := todo - {p};
    }
    r := Some(normalized);
  }

  /** The payload check is sound and complete. */
  method AssertReadonlySealedPayload(root: Option<Mode>, f: Files, policy: Policy, s: Snapshot,
                                     normalize: Path -> string, lower: string -> string) returns (ok: bool)
    requires WellFormed(f) && (forall p :: policy.identity(p) == lower(normalize(p)))
    ensures ok <==> SealedExactly(root, f, policy, s)
  {
    hide WellFormed, Manifestable, Manifest, DistinctRows;
    if root.None? || root.value & WRITE_BITS != 0 { return false; }
    var physical := BuildManifest(f, policy, BOTH, normalize, lower);
    if physical.None? { return false; }
    var expected := BuildTable(s.rows);
    var normalized := Normalize(physical.value, expected);
    TableSize(s.rows);
    if normalized.None? { return false; }
    assert physical.value.Keys <= expected.Keys;
    assert |physical.value.Keys| <= |expected.Keys| by { SubsetCount(physical.value.Keys, expected.Keys); }
    assert |normalized.value.Keys| == |physical.value.Keys| by { assert normalized.value.Keys == physical.value.Keys; }
    if |normalized.value.Keys| != |s.rows| {
      if DistinctRows(s.rows) { assert physical.value.Keys != expected.Keys; }
      return false;
    }
    SubsetOfSize(physical.value.Keys, expected.Keys);
    assert normalized.value == expected;
    ok := s.schema == 2 && s.hash == Digest(normalized.value);
  }

  lemma SubsetCount(a: set<Path>, b: set<Path>)
    requires a <= b
    ensures |a| <= |b|
  {
    assert b == a + (b - a);
  }

  // ------------------------------------------------------------- making read-only

  function ReadonlyNode(n: Node): Node {
    match n
    case File(mode, content) => File(ClearWrite(mode & PERMISSIONS), content)
    case Dir(mode) => Dir(ClearWrite(mode & PERMISSIONS))
    case _ => n
  }

  function ReadonlyTree(f: Files): Files { map p | p in f :: ReadonlyNode(f[p]) }

  /** The chmod walk over a payload; it refuses links and special files. */
  method MakeReadonly(v: Volume) returns (ok: bool)
    modifies v
    ensures ok <==> forall p <- old(v.nodes) :: Listable(old(v.nodes)[p])
    ensures ok ==> v.nodes == ReadonlyTree(old(v.nodes))
  {
    ghost var start := v.nodes;
    var todo := v.nodes.Keys;
    while todo != {}
      invariant v.nodes.Keys == start.Keys && todo <= start.Keys
      invariant forall p <- start :: v.nodes[p] == if p in todo then start[p] else ReadonlyNode(start[p])
      invariant forall p <- start.Keys - todo :: Listable(start[p])
      decreases |todo|
    {
      var p :| p in todo;
      if !Listable(v.nodes[p]) { return false; }
      v.nodes := v.nodes[p := ReadonlyNode(v.nodes[p])];
      todo := todo - {p};
    }
    ok := true;
  }

  lemma ClearedEntry(p: Path, n: Node, policy: Policy)
    requires Listable(n)
    ensures Listable(ReadonlyNode(n)) && EntryOf(p, ReadonlyNode(n), policy) == Readonly(EntryOf(p, n, policy))
  {
    assert ClearWrite(n.mode & PERMISSIONS) & PERMISSIONS == ClearWrite(n.mode & PERMISSIONS);
  }

  /** Stripping the write bits strips them from the manifest, entry by entry. */
  lemma ReadonlyManifest(f: Files, policy: Policy)
    requires WellFormed(f) && Manifestable(f, policy, BOTH) && (forall p <- f :: Listable(f[p]))
    ensures WellFormed(ReadonlyTree(f)) && Manifestable(ReadonlyTree(f), policy, BOTH)
    ensures Manifest(ReadonlyTree(f), policy, BOTH) == map p | p in Manifest(f, policy, BOTH) :: Readonly(Manifest(f, policy, BOTH)[p])
  {
    var r := ReadonlyTree(f);
    assert Selected(r, policy, BOTH) == Selected(f, policy, BOTH);
    forall p <- f ensures Listable(r[p]) && EntryOf(p, r[p], policy) == Readonly(EntryOf(p, f[p], policy)) {
      ClearedEntry(p, f[p], policy);
    }
    hide EntryOf, Classify;
  }

  /** Sealing always succeeds on a tree that could be listed: the payload made
      read-only passes the check against the manifest taken from the candidate. */
  lemma SealedIsAccepted(candidate: Files, policy: Policy, s: Snapshot, root: Mode)
    requires WellFormed(candidate) && Manifestable(candidate, policy, BOTH)
    requires s.schema == 2 && DistinctRows(s.rows) && Table(s.rows) == Manifest(candidate, policy, BOTH)
    requires s.hash == Digest(Table(s.rows))
    ensures var payload := Overlay(map[], candidate, Selected(candidate, policy, BOTH));
            && WellFormed(payload) && (forall p <- payload :: Listable(payload[p]))
            && SealedExactly(Some(ClearWrite(root & PERMISSIONS)), ReadonlyTree(payload), policy, s)
  {
    var chosen := Selected(candidate, policy, BOTH);
    var payload := Overlay(map[], candidate, chosen);
    CopyRestricts(candidate, policy, BOTH);
    SelectedListable(candidate, policy, BOTH);
    assert forall p <- payload :: Listable(payload[p]);
    assert ClearWrite(root & PERMISSIONS) & WRITE_BITS == 0;
    hide Overlay, WellFormed, Manifestable, Manifest;
    ReadonlyManifest(payload, policy);
  }
}
