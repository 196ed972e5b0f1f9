/**
 Workspace paths as sequences of segments, and the class a policy gives each path.
 */
module PathPolicy {
  type Path = seq<string>

  datatype Class = Versioned | Managed | Ignored
  /** Platform-managed path prefixes, ignored segment names, and the host's idea of
      path identity: the case-folded Unicode normal form of a path. */
  datatype Policy = Policy(managed: set<Path>, ignored: set<string>, identity: Path -> string)

  predicate HasIgnoredSegment(p: Path, policy: Policy) { exists segment <- p :: segment in policy.ignored }

  predicate UnderManaged(p: Path, policy: Policy) { exists m <- policy.managed :: m <= p }

  function Classify(p: Path, policy: Policy): Class {
    if HasIgnoredSegment(p, policy) then Ignored
    else if UnderManaged(p, policy) then Managed
    else Versioned
  }

  // ---------------------------------------------------------------- closure laws

  /** Every ancestor of a versioned path is versioned; ignored is inherited by every
      descendant; below a managed path everything is managed or ignored. */
  lemma ClassClosure(q: Path, p: Path, policy: Policy)
    requires q <= p
    ensures Classify(p, policy) == Versioned ==> Classify(q, policy) == Versioned
    ensures Classify(q, policy) == Ignored ==> Classify(p, policy) == Ignored
    ensures Classify(q, policy) == Managed ==> Classify(p, policy) in {Managed, Ignored}
  {
    if HasIgnoredSegment(q, policy) {
      var segment :| segment in q && segment in policy.ignored;
      assert segment in p;
    }
    if UnderManaged(q, policy) {
      var m :| m in policy.managed && m <= q;
      assert m <= p;
    }
  }

  // ------------------------------------------- the textual test the code performs

  predicate Segment(s: string) { '/' !in s }

  predicate Segments(p: Path) { p != [] && forall s <- p :: Segment(s) }

  function Join(p: Path): string
    requires p != []
  {
    if |p| == 1 then p[0] else p[0] + "/" + Join(p[1..])
  }

  lemma PrefixKeepsSlash(s: string, t: string)
    requires s <= t && '/' in s
    ensures '/' in t
  {
    var i :| 0 <= i < |s| && s[i] == '/';
    assert t[i] == '/';
  }

  lemma JoinSplits(s: string, x: string, t: string, y: string)
    requires Segment(s) && Segment(t)
    requires s + "/" + x == t + "/" + y
    ensures s == t && x == y
  {
    var a, b := s + "/" + x, t + "/" + y;
    assert a[|s|] == '/' && b[|t|] == '/' && a[..|s|] == s && b[..|t|] == t;
    assert x == a[|s| + 1..] && y == b[|t| + 1..];
  }

  lemma SegmentPrefix(s: string, t: string, y: string)
    requires Segment(s) && Segment(t) && s + "/" <= t + "/" + y
    ensures s == t
  {
    var b := t + "/" + y;
    JoinSplits(s, b[|s| + 1..], t, y);
  }

  lemma NoSlashPrefix(s: string, t: string)
    requires Segment(t) && '/' in s
    ensures !(s <= t)
  {
    if s <= t { PrefixKeepsSlash(s, t); }
  }

  /** Joining with slashes loses nothing: the code's `===` and `startsWith(managed + "/")`
      on joined text hold exactly when one path is a segment-wise prefix of the other. */
  lemma {:induction false} PrefixBySegments(m: Path, p: Path)
    requires Segments(m) && Segments(p)
    ensures Join(m) == Join(p) || Join(m) + "/" <= Join(p) <==> m <= p
  {
    if |m| == 1 && |p| == 1 {
      NoSlashPrefix(m[0] + "/", p[0]);
    } else if |m| == 1 {
      assert Join(p) == p[0] + "/" + Join(p[1..]);
      if m[0] + "/" <= Join(p) { SegmentPrefix(m[0], p[0], Join(p[1..])); }
      assert m <= p ==> m[0] + "/" <= Join(p);
      assert Join(p)[|p[0]|] == '/';
    } else if |p| == 1 {
      assert Join(m) == m[0] + "/" + Join(m[1..]) && Join(m)[|m[0]|] == '/';
      NoSlashPrefix(Join(m), p[0]);
      NoSlashPrefix(Join(m) + "/", p[0]);
    } else {
      var a, b := Join(m[1..]), Join(p[1..]);
      assert Join(m) == m[0] + "/" + a && Join(p) == p[0] + "/" + b;
      PrefixBySegments(m[1..], p[1..]);
      assert m <= p <==> m[0] == p[0] && m[1..] <= p[1..];
      if Join(m) == Join(p) { JoinSplits(m[0], a, p[0], b); }
      if Join(m) + "/" <= Join(p) {
        assert m[0] + "/" <= p[0] + "/" + b by { assert m[0] + "/" <= Join(m) + "/"; }
        SegmentPrefix(m[0], p[0], b);
        assert Join(p)[|m[0]| + 1..] == b && (Join(m) + "/")[|m[0]| + 1..] == a + "/";
      }
    }
  }
}
