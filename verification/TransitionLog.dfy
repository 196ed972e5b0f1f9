/**
 The hash-chained event log: a directory of immutable event files, read in the
 lexicographic order of their names.
 */
module TransitionLog {
  import opened Wrappers

  /** The digest of an event body determines the body; any other text is no digest of ours. */
  datatype Digest = Of(body: Body) | Foreign(text: string)
  datatype Body = Body(schema: int, id: string, agent: string, transition: string, sequence: nat, kind: string,
                       previous: Option<Digest>, payload: string, createdAt: string)
  datatype Event = Event(body: Body, digest: Digest)
  /** A file's content: a complete event, or what a killed write left. */
  datatype Content = Complete(event: Event) | Torn
  type Directory = map<string, Content>

  // -------------------------------------------------------------------- the chain

  predicate Follows(e: Event, previous: Option<Event>) {
    && e.body.schema == 1
    && e.body.sequence == (if previous.Some? then previous.value.body.sequence else 0) + 1
    && e.body.previous == (if previous.Some? then Some(previous.value.digest) else None)
    && e.digest == Of(e.body)
  }

  function Last(events: seq<Event>): Option<Event> { if events == [] then None else Some(events[|events| - 1]) }

  predicate Chain(events: seq<Event>) {
    events == [] || (Chain(events[..|events| - 1]) && Follows(events[|events| - 1], Last(events[..|events| - 1])))
  }

  lemma {:induction false} ChainCounts(events: seq<Event>)
    requires Chain(events)
    ensures forall i :: 0 <= i < |events| ==> events[i].body.sequence == i + 1
  {
    if events != [] { ChainCounts(events[..|events| - 1]); }
  }

  /** Tamper evidence: two accepted logs with the same last digest are the same log. */
  lemma {:induction false} SameDigestSameLog(a: seq<Event>, b: seq<Event>)
    requires Chain(a) && Chain(b) && a != [] && b != []
    requires a[|a| - 1].digest == b[|b| - 1].digest
    ensures a == b
  {
    var x, y := a[..|a| - 1], b[..|b| - 1];
    assert a == x + [a[|a| - 1]] && b == y + [b[|b| - 1]];
    ChainCounts(a);
    ChainCounts(b);
    if x != [] { SameDigestSameLog(x, y); }
  }

  // -------------------------------------------------------------------- file names

  function Digit(d: nat): char
    requires d < 10
  {
    ('0' as int + d) as char
  }

  function Decimal(n: nat): string { if n < 10 then [Digit(n)] else Decimal(n / 10) + [Digit(n % 10)] }

  function Zeros(n: nat): (s: string)
    ensures |s| == n
  {
    if n == 0 then "" else Zeros(n - 1) + "0"
  }

  /** padStart(12, "0") */
  function Padded(n: nat): string {
    var digits := Decimal(n);
    if |digits| < 12 then Zeros(12 - |digits|) + digits else digits
  }

  function Ten(k: nat): (t: nat)
    ensures t >= 1
  {
    if k == 0 then 1 else 10 * Ten(k - 1)
  }

  /** Exactly k decimal digits. */
  function Fixed(k: nat, n: nat): (s: string)
    ensures |s| == k
  {
    if k == 0 then "" else Fixed(k - 1, n / 10) + [Digit(n % 10)]
  }

  lemma {:induction false} FixedZero(k: nat)
    ensures Fixed(k, 0) == Zeros(k)
  {
    if k > 0 { FixedZero(k - 1); }
  }

  lemma {:induction false} DecimalIsFixed(k: nat, n: nat)
    requires n < Ten(k)
    ensures 0 < |Decimal(n)| && (k > 0 ==> |Decimal(n)| <= k && Fixed(k, n) == Zeros(k - |Decimal(n)|) + Decimal(n))
  {
    if k > 0 {
      if n < 10 {
        assert Fixed(k, n) == Fixed(k - 1, 0) + [Digit(n)];
        FixedZero(k - 1);
      } else {
        DecimalIsFixed(k - 1, n / 10);
        assert Zeros(k - |Decimal(n)|) + (Decimal(n / 10) + [Digit(n % 10)])
            == (Zeros(k - |Decimal(n)|) + Decimal(n / 10)) + [Digit(n % 10)];
      }
    }
  }

  const LIMIT: nat := 1_000_000_000_000

  lemma PaddedIsFixed(n: nat)
    requires n < LIMIT
    ensures Padded(n) == Fixed(12, n)
  {
    assert Ten(12) == LIMIT by { assert Ten(4) == 10_000 && Ten(8) == 100_000_000; }
    DecimalIsFixed(12, n);
  }

  ghost predicate AgreeTo(k: nat, a: string, b: string)
    requires k <= |a| && k <= |b|
  {
    forall i :: 0 <= i < k ==> a[i] == b[i]
  }

  /** Up to position k the names agree, and there the first one ends or is smaller. */
  ghost predicate SmallerAt(k: nat, a: string, b: string) {
    k <= |a| && k < |b| && AgreeTo(k, a, b) && (k == |a| || a[k] < b[k])
  }

  /** The order in which names are sorted. */
  ghost predicate Before(a: string, b: string) { exists k: nat :: SmallerAt(k, a, b) }

  lemma SmallerOnce(a: string, b: string, k: nat, j: nat)
    requires SmallerAt(k, a, b)
    ensures !SmallerAt(j, b, a)
  {
  }

  lemma BeforeAsymmetric(a: string, b: string)
    requires Before(a, b)
    ensures !Before(b, a) && a != b
  {
    var k: nat :| SmallerAt(k, a, b);
    forall j: nat ensures !SmallerAt(j, b, a) { SmallerOnce(a, b, k, j); }
  }

  lemma {:induction false} FixedOrder(k: nat, m: nat, n: nat) returns (j: nat)
    requires m < n < Ten(k)
    ensures j < k && AgreeTo(j, Fixed(k, m), Fixed(k, n)) && Fixed(k, m)[j] < Fixed(k, n)[j]
  {
    var a, b := Fixed(k - 1, m / 10), Fixed(k - 1, n / 10);
    if m / 10 < n / 10 {
      j := FixedOrder(k - 1, m / 10, n / 10);
    } else {
      assert m / 10 == n / 10 && m % 10 < n % 10;
      j := k - 1;
    }
  }

  function NameOf(sequence: nat, id: string): string { Padded(sequence) + "-" + id + ".json" }

  /** Below the limit the order of the file names is the order of the sequence numbers. */
  lemma NameOrder(m: nat, n: nat, x: string, y: string)
    requires m < n < LIMIT
    ensures Before(NameOf(m, x), NameOf(n, y))
  {
    assert Ten(12) == LIMIT by { assert Ten(4) == 10_000 && Ten(8) == 100_000_000; }
    PaddedIsFixed(m);
    PaddedIsFixed(n);
    var j := FixedOrder(12, m, n);
    hide Fixed, Padded;
    var a, b := NameOf(m, x), NameOf(n, y);
    assert forall i :: 0 <= i < 12 ==> a[i] == Fixed(12, m)[i] && b[i] == Fixed(12, n)[i];
    assert SmallerAt(j, a, b);
  }

  predicate IsDigit(c: char) { '0' <= c <= '9' }

  predicate LineTerminator(c: char) { c in {'\n', '\r', '\U{2028}', '\U{2029}'} }

  /** /^\d{12}-.*\.json$/ */
  predicate IsEventName(name: string) {
    && |name| >= 18 && (forall i :: 0 <= i < 12 ==> IsDigit(name[i])) && name[12] == '-'
    && name[|name| - 5..] == ".json" && forall i :: 13 <= i < |name| - 5 ==> !LineTerminator(name[i])
  }

  // -------------------------------------------------------------------- the directory

  ghost predicate Sorted(names: seq<string>) { forall i, k :: 0 <= i < k < |names| ==> Before(names[i], names[k]) }

  /** What readdir, filter and sort return. */
  ghost predicate IsListing(names: seq<string>, files: Directory) {
    Sorted(names) && forall name :: name in names <==> name in files && IsEventName(name)
  }

  lemma {:induction false} SortedUnique(a: seq<string>, b: seq<string>)
    requires Sorted(a) && Sorted(b) && (forall x :: x in a <==> x in b)
    ensures a == b
  {
    hide Before;
    assert b != [] ==> b[0] in b;
    if a != [] {
      var x := a[|a| - 1];
      assert x in a && x in b;
      var y := b[|b| - 1];
      assert y in b;
      if x != y {
        BeforeLast(b, x);
        BeforeLast(a, y);
        BeforeAsymmetric(x, y);
      } else {
        var init, other := a[..|a| - 1], b[..|b| - 1];
        forall z ensures z in init <==> z in other {
          InInit(a, z);
          InInit(b, z);
        }
        SortedUnique(init, other);
      }
    }
  }

  lemma BeforeLast(names: seq<string>, x: string)
    requires Sorted(names) && x in names && x != names[|names| - 1]
    ensures Before(x, names[|names| - 1])
  {
    hide Before;
  }

  lemma InInit(names: seq<string>, x: string)
    requires Sorted(names) && names != []
    ensures x in names[..|names| - 1] <==> x in names && x != names[|names| - 1]
  {
    hide Before;
    if x in names[..|names| - 1] {
      var i :| 0 <= i < |names| - 1 && names[i] == x;
      BeforeAsymmetric(x, names[|names| - 1]);
    }
  }

  /** A uuid: no line terminator and no dot. */
  predicate Plain(id: string) { |id| >= 5 && forall c <- id :: c != '.' && !LineTerminator(c) }

  function Names(events: seq<Event>): (names: seq<string>)
    ensures |names| == |events|
  {
    seq(|events|, i requires 0 <= i < |events| => NameOf(events[i].body.sequence, events[i].body.id))
  }

  /** The directory holds exactly this log, whatever else lies beside it. */
  ghost predicate Stored(files: Directory, events: seq<Event>) {
    && Chain(events) && |events| < LIMIT && (forall e <- events :: Plain(e.body.id))
    && (forall e <- events :: NameOf(e.body.sequence, e.body.id) in files && files[NameOf(e.body.sequence, e.body.id)] == Complete(e))
    && (forall name <- files :: IsEventName(name) ==> name in Names(events))
  }

  lemma {:induction false} FixedDigits(k: nat, n: nat)
    ensures forall c <- Fixed(k, n) :: IsDigit(c)
  {
    if k > 0 { FixedDigits(k - 1, n / 10); }
  }

  /** Exactly the sequences below the limit get a name that the log will list. */
  lemma NamedBelowLimit(sequence: nat, id: string)
    requires Plain(id)
    ensures IsEventName(NameOf(sequence, id)) <==> sequence < LIMIT
  {
    var name := NameOf(sequence, id);
    if sequence < LIMIT {
      PaddedIsFixed(sequence);
      FixedDigits(12, sequence);
      assert name[|name| - 5..] == ".json";
      forall i | 0 <= i < 12 ensures IsDigit(name[i]) { assert Padded(sequence)[i] in Fixed(12, sequence); }
    } else {
      assert Ten(12) == LIMIT by { assert Ten(4) == 10_000 && Ten(8) == 100_000_000; }
      DecimalLong(12, sequence);
      assert Padded(sequence) == Decimal(sequence);
      DecimalDigits(sequence);
      assert name[12] == Decimal(sequence)[12];
      assert Decimal(sequence)[12] in Decimal(sequence);
    }
  }

  lemma {:induction false} DecimalDigits(n: nat)
    ensures forall c <- Decimal(n) :: IsDigit(c)
  {
    if n >= 10 { DecimalDigits(n / 10); }
  }

  lemma {:induction false} DecimalLong(k: nat, n: nat)
    requires n >= Ten(k)
    ensures |Decimal(n)| > k
  {
    if k > 0 {
      assert n / 10 >= Ten(k - 1);
      assert n >= 10;
      DecimalLong(k - 1, n / 10);
    }
  }

  lemma StoredNames(files: Directory, events: seq<Event>)
    requires Stored(files, events)
    ensures IsListing(Names(events), files)
  {
    var names := Names(events);
    ChainCounts(events);
    forall i, k | 0 <= i < k < |names| ensures Before(names[i], names[k]) {
      NameOrder(i + 1, k + 1, events[i].body.id, events[k].body.id);
    }
    forall name ensures name in names <==> name in files && IsEventName(name) {
      if name in names {
        var i :| 0 <= i < |events| && name == names[i];
        assert events[i] in events;
        NamedBelowLimit(i + 1, events[i].body.id);
      }
    }
  }

  datatype LogError = SequenceInvalid | ChainInvalid | DigestInvalid | Unparsable

  /** The listed files are this accepted log. */
  ghost predicate Loads(files: Directory, names: seq<string>, events: seq<Event>)
    requires forall name <- names :: name in files
  {
    Chain(events) && |events| == |names| && forall i :: 0 <= i < |names| ==> files[names[i]] == Complete(events[i])
  }

  lemma {:induction false} ChainPrefix(events: seq<Event>, n: nat)
    requires Chain(events) && n <= |events|
    ensures Chain(events[..n])
  {
    if n == |events| {
      assert events[..n] == events;
    } else {
      assert events[..|events| - 1][..n] == events[..n];
      ChainPrefix(events[..|events| - 1], n);
    }
  }

  lemma StopsHere(files: Directory, names: seq<string>, events: seq<Event>, all: seq<Event>)
    requires (forall name <- names :: name in files) && |events| < |names|
    requires forall i :: 0 <= i < |events| ==> files[names[i]] == Complete(events[i])
    requires files[names[|events|]].Torn? || !Follows(files[names[|events|]].event, Last(events))
    ensures !Loads(files, names, all)
  {
    var n := |events|;
    if |all| == |names| && (forall i :: 0 <= i < |names| ==> files[names[i]] == Complete(all[i])) {
      assert all[..n] == events;
      assert all[..n + 1][..n] == all[..n];
      assert all[..n + 1][n] == all[n];
      if Chain(all) { ChainPrefix(all, n + 1); }
    }
  }

  /** The read loop: every listed file in order, each against its predecessor. */
  method ReadLog(files: Directory, names: seq<string>) returns (r: Result<seq<Event>, LogError>)
    requires forall name <- names :: name in files
    ensures r.Success? ==> Loads(files, names, r.value)
    ensures r.Failure? ==> forall events: seq<Event> :: !Loads(files, names, events)
  {
    var events: seq<Event> := [];
    for n := 0 to |names|
      invariant Chain(events) && |events| == n
      invariant forall i :: 0 <= i < n ==> files[names[i]] == Complete(events[i])
    {
      var content := files[names[n]];
      var problem: Option<LogError> := None;
      if content.Torn? {
        problem := Some(Unparsable);
      } else {
        var body, previous := content.event.body, Last(events);
        if body.schema != 1 || body.sequence != (if previous.Some? then previous.value.body.sequence else 0) + 1 {
          problem := Some(SequenceInvalid);
        } else if body.previous != (if previous.Some? then Some(previous.value.digest) else None) {
          problem := Some(ChainInvalid);
        } else if content.event.digest != Of(body) {
          problem := Some(DigestInvalid);
        }
      }
      if problem.Some? {
        forall all: seq<Event> ensures !Loads(files, names, all) { StopsHere(files, names, events, all); }
        return Failure(problem.value);
      }
      assert (events + [content.event])[..n] == events;
      events := events + [content.event];
    }
    r := Success(events);
  }

  /** Whatever listing order the names came in, a stored log is read back. */
  lemma StoredIsRead(files: Directory, events: seq<Event>, names: seq<string>)
    requires Stored(files, events) && IsListing(names, files)
    ensures names == Names(events) && (forall name <- names :: name in files) && Loads(files, names, events)
  {
    StoredNames(files, events);
    SortedUnique(names, Names(events));
    forall i | 0 <= i < |events| ensures files[Names(events)[i]] == Complete(events[i]) { assert events[i] in events; }
  }

  lemma TemporaryIsIgnored(name: string, nonce: string)
    requires Plain(nonce)
    ensures !IsEventName(name + ".tmp-" + nonce)
  {
    var temporary := name + ".tmp-" + nonce;
    assert temporary[|temporary| - 5] == nonce[|nonce| - 5];
    assert nonce[|nonce| - 5] in nonce;
    assert ".json"[0] == '.';
  }

  /** Files the log does not list may come and go. */
  lemma StoredBeside(files: Directory, events: seq<Event>, name: string, c: Content)
    requires Stored(files, events) && !IsEventName(name)
    ensures Stored(files[name := c], events) && Stored(files - {name}, events)
  {
    StoredNames(files, events);
    forall e <- events ensures NameOf(e.body.sequence, e.body.id) != name {
      var i :| 0 <= i < |events| && events[i] == e;
      assert Names(events)[i] in Names(events);
    }
  }

  lemma NamesAppend(events: seq<Event>, e: Event)
    ensures Names(events + [e]) == Names(events) + [NameOf(e.body.sequence, e.body.id)]
  {
    hide NameOf;
  }

  lemma NewName(events: seq<Event>, e: Event, f: Event)
    requires Chain(events) && Follows(e, Last(events)) && |events| + 1 < LIMIT && f in events
    ensures NameOf(f.body.sequence, f.body.id) != NameOf(e.body.sequence, e.body.id)
  {
    ChainCounts(events);
    NameOrder(f.body.sequence, e.body.sequence, f.body.id, e.body.id);
    BeforeAsymmetric(NameOf(f.body.sequence, f.body.id), NameOf(e.body.sequence, e.body.id));
  }

  lemma StoredNext(files: Directory, events: seq<Event>, e: Event)
    requires Stored(files, events) && Follows(e, Last(events)) && Plain(e.body.id) && |events| + 1 < LIMIT
    ensures Stored(files[NameOf(e.body.sequence, e.body.id) := Complete(e)], events + [e])
  {
    var name, all := NameOf(e.body.sequence, e.body.id), events + [e];
    assert all[..|events|] == events;
    forall f <- events ensures NameOf(f.body.sequence, f.body.id) != name { NewName(events, e, f); }
    NamesAppend(events, e);
    hide NameOf, IsEventName, Names, Follows;
  }

  /** The log of one agent. */
  class EventLog {
    var files: Directory

    /** Reads, writes a temporary file, renames it into place.  The process may be
        killed between any two of these steps, with the temporary file torn. */
    method Append(names: seq<string>, agent: string, transition: string, kind: string, payload: string,
                  id: string, nonce: string, createdAt: string, ghost events: seq<Event>) returns (r: Option<Event>, ghost next: Event)
      requires Stored(files, events) && IsListing(names, files) && Plain(id) && Plain(nonce)
      modifies this
      ensures Follows(next, Last(events)) && next.body.id == id && next.body.payload == payload && next.body.kind == kind
      ensures Stored(files, events) || (|events| + 1 < LIMIT && Stored(files, events + [next]))
      ensures r.Some? ==> r.value == next && (|events| + 1 < LIMIT ==> Stored(files, events + [next]))
      ensures r.Some? && |events| + 1 >= LIMIT ==> Stored(files, events)
    {
      hide Stored, Chain, IsListing, NameOf, IsEventName, Plain;
      StoredIsRead(files, events, names);
      var existing := ReadLog(files, names);
      assert existing == Success(events) by { LoadedOnce(files, names, events, existing); }
      var last := Last(existing.value);
      var sequence := (if last.Some? then last.value.body.sequence else 0) + 1;
      var body := Body(1, id, agent, transition, sequence, kind, if last.Some? then Some(last.value.digest) else None,
                       payload, createdAt);
      var event := Event(body, Of(body));
      next := event;
      assert sequence == |events| + 1 by { SequenceIsLength(events); }
      var destination := NameOf(sequence, id);
      var temporary := destination + ".tmp-" + nonce;
      TemporaryIsIgnored(destination, nonce);
      NamedBelowLimit(sequence, id);
      var killed: bool := *;
      if killed || temporary in files { return None, next; }
      var before := files;
      StoredBeside(files, events, temporary, Torn);
      StoredBeside(files, events, temporary, Complete(event));
      files := files[temporary := Torn];
      killed := *;
      if killed { return None, next; }
      files := before[temporary := Complete(event)];
      killed := *;
      if killed { return None, next; }
      files := before;
      if sequence < LIMIT { StoredNext(files, events, event); } else { StoredBeside(files, events, destination, Complete(event)); }
      files := files[destination := Complete(event)];
      killed := *;
      r := if killed then None else Some(event);
    }
  }

  lemma SequenceIsLength(events: seq<Event>)
    requires Chain(events)
    ensures Last(events).Some? ==> Last(events).value.body.sequence == |events|
  {
    ChainCounts(events);
  }

  lemma LoadedOnce(files: Directory, names: seq<string>, events: seq<Event>, r: Result<seq<Event>, LogError>)
    requires (forall name <- names :: name in files) && Loads(files, names, events)
    requires r.Success? ==> Loads(files, names, r.value)
    requires r.Failure? ==> forall all: seq<Event> :: !Loads(files, names, all)
    ensures r == Success(events)
  {
    if r.Success? {
      assert r.value == events;
    }
  }
}
