/**
 The compiler from policy globs to regular-expression text, the reading of that text
 by the pattern grammar of ECMA-262 section 22.2.1, and the meaning both preserve.
 */
module Glob {
  import opened Wrappers

  predicate LineTerminator(c: char) { c in {'\n', '\r', '\U{2028}', '\U{2029}'} }

  // ------------------------------------------------------------------ the compiler

  /** The characters the compiler escapes; `*` and `?` never reach this test. */
  predicate Escaped(c: char) { c in {'|', '\\', '{', '}', '(', ')', '[', ']', '^', '$', '+', '?', '.'} }

  function Quoted(c: char): string { if Escaped(c) then ['\\', c] else [c] }

  /** The text emitted for a suffix of the glob, without the anchors. */
  function Emitted(p: string): string {
    if p == "" then ""
    else if p[0] == '*' && |p| > 1 && p[1] == '*' then ".*" + Emitted(p[2..])
    else if p[0] == '*' then "[^/]*" + Emitted(p[1..])
    else if p[0] == '?' then "[^/]" + Emitted(p[1..])
    else Quoted(p[0]) + Emitted(p[1..])
  }

  method GlobToRegExp(pattern: string) returns (text: string)
    ensures text == "^" + Emitted(pattern) + "$"
  {
    text := "^";
    var index := 0;
    while index < |pattern|
      invariant 0 <= index <= |pattern|
      invariant text + Emitted(pattern[index..]) == "^" + Emitted(pattern)
    {
      var c := pattern[index];
      ghost var rest := pattern[index..];
      if c == '*' && index + 1 < |pattern| && pattern[index + 1] == '*' {
        assert rest[2..] == pattern[index + 2..];
        text := text + ".*";
        index := index + 1;
      } else if c == '*' {
        text := text + "[^/]*";
      } else if c == '?' {
        text := text + "[^/]";
      } else {
        text := text + Quoted(c);
      }
      index := index + 1;
      assert rest[1..] == pattern[|pattern| - |rest| + 1..];
    }
    text := text + "$";
  }

  // ------------------------------------------------------- the pattern's own grammar

  predicate SyntaxCharacter(c: char) { c in {'^', '$', '\\', '.', '*', '+', '?', '(', ')', '[', ']', '{', '}', '|'} }

  datatype Atom = Literal(c: char) | NotSlash | Dot
  datatype Term = Once(atom: Atom) | Star(atom: Atom)

  /** One atom from the front of the text, with the length it takes. */
  function ReadAtom(text: string): Option<(Atom, nat)> {
    if |text| >= 4 && text[..4] == "[^/]" then Some((NotSlash, 4))
    else if text != "" && text[0] == '.' then Some((Dot, 1))
    else if |text| >= 2 && text[0] == '\\' && SyntaxCharacter(text[1]) then Some((Literal(text[1]), 2))
    else if text != "" && !SyntaxCharacter(text[0]) then Some((Literal(text[0]), 1))
    else None
  }

  /** Terms up to the closing anchor; only the greedy `*` quantifier is needed. */
  function ReadTerms(text: string): Option<seq<Term>>
    decreases |text|
  {
    if text == "$" then Some([])
    else
      match ReadAtom(text)
      case None => None
      case Some((atom, n)) =>
        if n > |text| then None
        else
          var starred := n < |text| && text[n] == '*';
          match ReadTerms(text[if starred then n + 1 else n..])
          case None => None
          case Some(terms) => Some([if starred then Star(atom) else Once(atom)] + terms)
  }

  function ReadPattern(text: string): Option<seq<Term>> {
    if text != "" && text[0] == '^' then ReadTerms(text[1..]) else None
  }

  predicate Fits(a: Atom, c: char) {
    match a
    case Literal(d) => c == d
    case NotSlash => c != '/'
    case Dot => !LineTerminator(c)
  }

  /** `test` of an anchored pattern: the terms consume the whole input. */
  predicate Test(terms: seq<Term>, s: string)
    decreases |terms| + |s|
  {
    if terms == [] then s == ""
    else
      match terms[0]
      case Once(a) => s != "" && Fits(a, s[0]) && Test(terms[1..], s[1..])
      case Star(a) => Test(terms[1..], s) || (s != "" && Fits(a, s[0]) && Test(terms, s[1..]))
  }

  // -------------------------------------------------------------- the direct matcher

  /** `**` any run, `*` a slash-free run, `?` one non-slash, every other character itself. */
  predicate Matches(p: string, s: string)
    decreases |p| + |s|
  {
    if p == "" then s == ""
    else if p[0] == '*' && |p| > 1 && p[1] == '*' then Matches(p[2..], s) || (s != "" && Matches(p, s[1..]))
    else if p[0] == '*' then Matches(p[1..], s) || (s != "" && s[0] != '/' && Matches(p, s[1..]))
    else if p[0] == '?' then s != "" && s[0] != '/' && Matches(p[1..], s[1..])
    else s != "" && s[0] == p[0] && Matches(p[1..], s[1..])
  }

  // -------------------------------------------------------------- they are the same

  /** The terms a glob stands for. */
  function Terms(p: string): seq<Term> {
    if p == "" then []
    else if p[0] == '*' && |p| > 1 && p[1] == '*' then [Star(Dot)] + Terms(p[2..])
    else if p[0] == '*' then [Star(NotSlash)] + Terms(p[1..])
    else if p[0] == '?' then [Once(NotSlash)] + Terms(p[1..])
    else [Once(Literal(p[0]))] + Terms(p[1..])
  }

  /** What follows an atom in emitted text is never taken for its quantifier. */
  lemma NoStray(p: string)
    ensures var rest := Emitted(p) + "$"; rest != "" && rest[0] != '*'
  {
  }

  lemma ReadOne(text: string, n: nat, atom: Atom, rest: string, terms: seq<Term>)
    requires ReadAtom(text) == Some((atom, n)) && 0 < n < |text| && text != "$"
    requires text[if text[n] == '*' then n + 1 else n..] == rest && ReadTerms(rest) == Some(terms)
    ensures ReadTerms(text) == Some([if text[n] == '*' then Star(atom) else Once(atom)] + terms)
  {
    hide ReadAtom;
  }

  lemma ReadDots(rest: string, terms: seq<Term>)
    requires ReadTerms(rest) == Some(terms)
    ensures ReadTerms(".*" + rest) == Some([Star(Dot)] + terms)
  {
    var text := ".*" + rest;
    assert text[0] == '.' && text[1] == '*' && text[2..] == rest;
    hide ReadTerms;
    assert ReadAtom(text) == Some((Dot, 1)) by { assert |text| >= 4 ==> text[..4][0] == '.'; }
    ReadOne(text, 1, Dot, rest, terms);
  }

  lemma ReadRun(rest: string, terms: seq<Term>)
    requires ReadTerms(rest) == Some(terms)
    ensures ReadTerms("[^/]*" + rest) == Some([Star(NotSlash)] + terms)
  {
    var text := "[^/]*" + rest;
    assert text[..4] == "[^/]" && text[4] == '*' && text[5..] == rest;
    hide ReadTerms;
    ReadOne(text, 4, NotSlash, rest, terms);
  }

  lemma ReadQuestion(rest: string, terms: seq<Term>)
    requires rest != "" && rest[0] != '*' && ReadTerms(rest) == Some(terms)
    ensures ReadTerms("[^/]" + rest) == Some([Once(NotSlash)] + terms)
  {
    var text := "[^/]" + rest;
    assert text[..4] == "[^/]" && text[4] == rest[0] && text[4..] == rest;
    hide ReadTerms;
    ReadOne(text, 4, NotSlash, rest, terms);
  }

  lemma ReadQuoted(c: char, rest: string, terms: seq<Term>)
    requires c != '*' && c != '?' && rest != "" && rest[0] != '*' && ReadTerms(rest) == Some(terms)
    ensures ReadTerms(Quoted(c) + rest) == Some([Once(Literal(c))] + terms)
  {
    var text, n := Quoted(c) + rest, |Quoted(c)|;
    assert text[0] == Quoted(c)[0] && (Escaped(c) ==> text[1] == c) && text[n] == rest[0] && text[n..] == rest;
    hide ReadTerms;
    assert ReadAtom(text) == Some((Literal(c), n)) by { assert |text| >= 4 ==> text[..4][0] == text[0]; }
    ReadOne(text, n, Literal(c), rest, terms);
  }

  lemma ReadEnd()
    ensures ReadTerms("$") == Some([])
  {
  }

  /** The grammar reads the emitted text back as the glob's terms: nothing is reinterpreted. */
  lemma {:induction false} EmittedIsRead(p: string)
    ensures ReadTerms(Emitted(p) + "$") == Some(Terms(p))
  {
    hide ReadTerms, Quoted;
    if p == "" {
      ReadEnd();
      assert Emitted(p) + "$" == "$";
    } else {
      var n := if p[0] == '*' && |p| > 1 && p[1] == '*' then 2 else 1;
      var rest := Emitted(p[n..]) + "$";
      EmittedIsRead(p[n..]);
      NoStray(p[n..]);
      if n == 2 {
        ReadDots(rest, Terms(p[2..]));
        assert Emitted(p) + "$" == ".*" + rest;
      } else if p[0] == '*' {
        ReadRun(rest, Terms(p[1..]));
        assert Emitted(p) + "$" == "[^/]*" + rest;
      } else if p[0] == '?' {
        ReadQuestion(rest, Terms(p[1..]));
        assert Emitted(p) + "$" == "[^/]" + rest;
      } else {
        ReadQuoted(p[0], rest, Terms(p[1..]));
        assert Emitted(p) + "$" == Quoted(p[0]) + rest;
      }
    }
  }

  /** The matcher the regular expression amounts to: `**` does not cross a line end. */
  predicate MatchesInLines(p: string, s: string)
    decreases |p| + |s|
  {
    if p == "" then s == ""
    else if p[0] == '*' && |p| > 1 && p[1] == '*' then
      MatchesInLines(p[2..], s) || (s != "" && !LineTerminator(s[0]) && MatchesInLines(p, s[1..]))
    else if p[0] == '*' then MatchesInLines(p[1..], s) || (s != "" && s[0] != '/' && MatchesInLines(p, s[1..]))
    else if p[0] == '?' then s != "" && s[0] != '/' && MatchesInLines(p[1..], s[1..])
    else s != "" && s[0] == p[0] && MatchesInLines(p[1..], s[1..])
  }

  lemma {:induction false} TestIsMatches(p: string, s: string)
    ensures Test(Terms(p), s) <==> MatchesInLines(p, s)
    decreases |p| + |s|
  {
    if p != "" {
      var n := if p[0] == '*' && |p| > 1 && p[1] == '*' then 2 else 1;
      assert Terms(p)[1..] == Terms(p[n..]);
      if p[0] == '*' { TestIsMatches(p[n..], s); }
      if s != "" {
        TestIsMatches(p[n..], s[1..]);
        if p[0] == '*' { TestIsMatches(p, s[1..]); }
      }
    }
  }

  lemma {:induction false} SameWithinLines(p: string, s: string)
    requires forall c <- s :: !LineTerminator(c)
    ensures MatchesInLines(p, s) <==> Matches(p, s)
    decreases |p| + |s|
  {
    if p != "" {
      var n := if p[0] == '*' && |p| > 1 && p[1] == '*' then 2 else 1;
      if p[0] == '*' { SameWithinLines(p[n..], s); }
      if s != "" {
        SameWithinLines(p[n..], s[1..]);
        if p[0] == '*' { SameWithinLines(p, s[1..]); }
      }
    }
  }

  /** The compiled glob, read as a pattern, accepts the path. */
  predicate Accepts(p: string, s: string) {
    var pattern := ReadPattern("^" + Emitted(p) + "$");
    pattern.Some? && Test(pattern.value, s)
  }

  /** The compiler preserves meaning, metacharacters included: for every glob and every
      path the emitted text is a pattern, which accepts the path exactly when the direct
      matcher does with `**` kept within a line. */
  lemma CompiledMeaning(p: string, s: string)
    ensures ReadPattern("^" + Emitted(p) + "$").Some?
    ensures Accepts(p, s) <==> MatchesInLines(p, s)
  {
    var text := "^" + Emitted(p) + "$";
    assert text[1..] == Emitted(p) + "$";
    EmittedIsRead(p);
    TestIsMatches(p, s);
  }

  lemma {:induction false} DoubleStarMatches(s: string)
    ensures Matches("**", s)
  {
    assert "**"[2..] == "";
    if s != "" { DoubleStarMatches(s[1..]); } else { assert Matches("", s); }
  }

  lemma {:induction false} DoubleStarStops(s: string)
    requires MatchesInLines("**", s)
    ensures forall c <- s :: !LineTerminator(c)
  {
    assert "**"[2..] == "";
    if s != "" {
      assert !MatchesInLines("", s);
      DoubleStarStops(s[1..]);
      assert s == [s[0]] + s[1..];
    }
  }

  /** On exactly the paths without a line terminator the compiled globs, all of them,
      mean what the direct matcher says: on any other path `**` already differs. */
  lemma CompiledAgreesIff(s: string)
    ensures (forall p :: Accepts(p, s) <==> Matches(p, s)) <==> (forall c <- s :: !LineTerminator(c))
  {
    hide Accepts, Matches, MatchesInLines, LineTerminator;
    if forall c <- s :: !LineTerminator(c) {
      forall p ensures Accepts(p, s) <==> Matches(p, s) {
        CompiledMeaning(p, s);
        SameWithinLines(p, s);
      }
    }
    if forall p :: Accepts(p, s) <==> Matches(p, s) {
      DoubleStarMatches(s);
      CompiledMeaning("**", s);
      DoubleStarStops(s);
    }
  }
}
