/** Scope patterns: shell globs over already contained relative paths, in which
    `*` also absorbs `/`, and a pattern covers everything beneath what it
    matches. */
module Glob {
  import opened Strings

  datatype Token = Star | AnyOne | Class(body: string) | Lit(c: char)

  /** Which characters a bracket body stands for, ranges and negation included. */
  type Classes = (string, char) -> bool

  /** Where the bracket opened before `i` closes; |p| when it never does.  A
      leading `!` and then a leading `]` belong to the body. */
  function Close(p: string, i: nat): (k: nat)
    requires i <= |p|
    ensures i <= k <= |p|
  {
    var j := if i < |p| && p[i] == '!' then i + 1 else i;
    var k := if j < |p| && p[j] == ']' then j + 1 else j;
    FindChar(p, ']', k)
  }

  /** The token that starts at `i`, and where the next one does; a bracket
      that never closes stands for itself. */
  function Head(p: string, i: nat): Token
    requires i < |p|
  {
    if p[i] == '*' then Star
    else if p[i] == '?' then AnyOne
    else if p[i] == '[' && Close(p, i + 1) < |p| then Class(p[i + 1..Close(p, i + 1)])
    else Lit(p[i])
  }

  function Next(p: string, i: nat): (k: nat)
    requires i < |p|
    ensures i < k <= |p|
  {
    if p[i] == '[' && Close(p, i + 1) < |p| then Close(p, i + 1) + 1 else i + 1
  }

  function Parse(p: string, i: nat): seq<Token>
    requires i <= |p|
    decreases |p| - i
  {
    if i == |p| then [] else [Head(p, i)] + Parse(p, Next(p, i))
  }

  predicate Takes(t: Token, c: char, classes: Classes) {
    match t
    case Star => false
    case AnyOne => true
    case Class(body) => classes(body, c)
    case Lit(d) => c == d
  }

  predicate Matches(ts: seq<Token>, s: string, classes: Classes)
    decreases |ts| + |s|
  {
    if ts == [] then s == ""
    else if ts[0] == Star then Matches(ts[1..], s, classes) || (s != "" && Matches(ts, s[1..], classes))
    else s != "" && Takes(ts[0], s[0], classes) && Matches(ts[1..], s[1..], classes)
  }

  predicate FnMatch(s: string, p: string, classes: Classes) { Matches(Parse(p, 0), s, classes) }

  function Slashes(s: string): (r: string)
    ensures |r| == |s|
  {
    seq(|s|, i requires 0 <= i < |s| => if s[i] == '\\' then '/' else s[i])
  }

  function StripRight(s: string): (r: string)
    ensures r <= s && (r == "" || r[|r| - 1] != '/')
  {
    if s != "" && s[|s| - 1] == '/' then StripRight(s[..|s| - 1]) else s
  }

  /** The pattern itself, or anything beneath it. */
  predicate Covers(rel: string, p: string, classes: Classes) {
    var q := StripRight(Slashes(p));
    FnMatch(Slashes(rel), q, classes) || FnMatch(Slashes(rel), q + "/*", classes)
  }

  predicate PathMatches(rel: string, patterns: seq<string>, classes: Classes) {
    exists p :: p in patterns && Covers(rel, p, classes)
  }

  // ------------------------------------------------------- algebra of matching

  lemma {:induction false} MatchConcat(a: seq<Token>, b: seq<Token>, s: string, t: string, classes: Classes)
    requires Matches(a, s, classes) && Matches(b, t, classes)
    ensures Matches(a + b, s + t, classes)
    decreases |a| + |s|
  {
    if a == [] {
      assert a + b == b && s + t == t;
    } else {
      assert (a + b)[0] == a[0] && (a + b)[1..] == a[1..] + b;
      if a[0] == Star && Matches(a[1..], s, classes) {
        MatchConcat(a[1..], b, s, t, classes);
      } else {
        assert (s + t)[0] == s[0] && (s + t)[1..] == s[1..] + t;
        MatchConcat(if a[0] == Star then a else a[1..], b, s[1..], t, classes);
      }
    }
  }

  /** A matched text splits where its pattern splits. */
  lemma {:induction false} MatchSplit(a: seq<Token>, b: seq<Token>, s: string, classes: Classes) returns (k: nat)
    requires Matches(a + b, s, classes)
    ensures k <= |s| && Matches(a, s[..k], classes) && Matches(b, s[k..], classes)
    decreases |a| + |s|
  {
    if a == [] {
      assert a + b == b && s[0..] == s;
      k := 0;
    } else {
      assert (a + b)[0] == a[0] && (a + b)[1..] == a[1..] + b;
      if a[0] == Star && Matches(a[1..] + b, s, classes) {
        k := MatchSplit(a[1..], b, s, classes);
      } else {
        var rest := MatchSplit(if a[0] == Star then a else a[1..], b, s[1..], classes);
        k := rest + 1;
        assert s[..k][0] == s[0] && s[..k][1..] == s[1..][..rest] && s[k..] == s[1..][rest..];
      }
    }
  }

  lemma {:induction false} StarTakesAll(s: string, classes: Classes)
    ensures Matches([Star], s, classes)
  {
    if s != "" { StarTakesAll(s[1..], classes); }
  }

  lemma {:induction false} FindAppend(p: string, c: char, from: nat)
    requires from <= |p| && c != '/' && c != '*'
    ensures FindChar(p + BELOW, c, from) == if FindChar(p, c, from) < |p| then FindChar(p, c, from) else |p + BELOW|
    decreases |p| - from
  {
    var q := p + BELOW;
    if from < |p| {
      assert q[from] == p[from];
      if p[from] != c { FindAppend(p, c, from + 1); }
    } else {
      assert q[from] == '/' && q[from + 1] == '*';
      assert FindChar(q, c, from + 2) == |q|;
    }
  }

  const BELOW := "/*"

  lemma HeadAppend(p: string, i: nat)
    requires i < |p|
    ensures Head(p + BELOW, i) == Head(p, i) && Next(p + BELOW, i) == Next(p, i)
  {
    var q := p + BELOW;
    assert q[i] == p[i];
    if p[i] == '[' {
      CloseAppend(p, i + 1);
      var k := Close(p, i + 1);
      if k < |p| { assert q[i + 1..k] == p[i + 1..k]; }
    }
  }

  /** Adding a subtree wildcard closes no bracket, so it adds two tokens. */
  lemma {:induction false} ParseAppend(p: string, i: nat)
    requires i <= |p|
    ensures Parse(p + BELOW, i) == Parse(p, i) + [Lit('/'), Star]
    decreases |p| - i
  {
    var q := p + BELOW;
    if i == |p| {
      assert q[i] == '/' && q[i + 1] == '*';
      assert Head(q, i) == Lit('/') && Head(q, i + 1) == Star;
      assert Parse(q, i + 2) == [];
      assert Parse(q, i + 1) == [Star];
    } else {
      HeadAppend(p, i);
      ParseAppend(p, Next(p, i));
    }
  }

  lemma CloseAppend(p: string, i: nat)
    requires i <= |p|
    ensures Close(p + BELOW, i) == if Close(p, i) < |p| then Close(p, i) else |p + BELOW|
  {
    var q := p + BELOW;
    assert forall j | 0 <= j < |p| :: q[j] == p[j];
    assert i == |p| ==> q[i] == '/';
    var j := if i < |p| && p[i] == '!' then i + 1 else i;
    assert j == |p| ==> q[j] == '/';
    var k := if j < |p| && p[j] == ']' then j + 1 else j;
    FindAppend(p, ']', k);
  }

  lemma BelowMatches(x: string, classes: Classes)
    ensures Matches([Lit('/'), Star], ['/'] + x, classes)
  {
    StarTakesAll(x, classes);
    assert [Lit('/'), Star][1..] == [Star] && (['/'] + x)[1..] == x;
  }

  lemma BelowIsSlash(s: string, classes: Classes)
    requires Matches([Lit('/'), Star], s, classes)
    ensures s != "" && s[0] == '/'
  {
  }

  // ------------------------------------------------------------ main theorems

  lemma TokensBelow(ts: seq<Token>, r: string, x: string, classes: Classes)
    requires Matches(ts, r, classes) || Matches(ts + [Lit('/'), Star], r, classes)
    ensures Matches(ts + [Lit('/'), Star], r + (['/'] + x), classes)
  {
    hide Matches;
    var under := ['/'] + x;
    if Matches(ts, r, classes) {
      BelowMatches(x, classes);
      MatchConcat(ts, [Lit('/'), Star], r, under, classes);
    } else {
      var k := MatchSplit(ts, [Lit('/'), Star], r, classes);
      BelowIsSlash(r[k..], classes);
      var tail := r[k..] + under;
      assert tail == ['/'] + tail[1..];
      BelowMatches(tail[1..], classes);
      MatchConcat(ts, [Lit('/'), Star], r[..k], tail, classes);
      assert r[..k] + tail == r + under;
    }
  }

  lemma CoversBelow(rel: string, below: string, p: string, classes: Classes)
    requires Covers(rel, p, classes)
    ensures Covers(rel + "/" + below, p, classes)
  {
    var q, r, x := StripRight(Slashes(p)), Slashes(rel), Slashes(below);
    assert Slashes(rel + "/" + below) == r + (['/'] + x);
    hide Matches, Parse, StripRight, Slashes;
    ParseAppend(q, 0);
    TokensBelow(Parse(q, 0), r, x, classes);
  }

  /** Scope is closed downwards: a matched path brings its whole subtree, so a
      forbidden directory forbids everything in it. */
  lemma MatchedSubtree(rel: string, below: string, patterns: seq<string>, classes: Classes)
    requires PathMatches(rel, patterns, classes)
    ensures PathMatches(rel + "/" + below, patterns, classes)
  {
    var p :| p in patterns && Covers(rel, p, classes);
    CoversBelow(rel, below, p, classes);
  }

  predicate Literal(p: string) { '*' !in p && '?' !in p && '[' !in p }

  lemma {:induction false} LiteralParse(p: string, i: nat, s: string, classes: Classes)
    requires i <= |p| && Literal(p)
    ensures Matches(Parse(p, i), s, classes) <==> s == p[i..]
    decreases |p| - i
  {
    if i < |p| {
      assert p[i] in p;
      assert Parse(p, i) == [Lit(p[i])] + Parse(p, i + 1);
      assert Parse(p, i)[1..] == Parse(p, i + 1);
      if s != "" { LiteralParse(p, i + 1, s[1..], classes); }
      assert p[i..] == [p[i]] + p[i + 1..];
      if s != "" { assert s == [s[0]] + s[1..]; }
    }
  }

  /** A pattern without wildcards covers exactly itself and its descendants. */
  lemma LiteralCoversIff(rel: string, p: string, classes: Classes)
    requires Literal(StripRight(Slashes(p)))
    ensures var q, r := StripRight(Slashes(p)), Slashes(rel);
            Covers(rel, p, classes) <==> r == q || q + "/" <= r
  {
    var q, r := StripRight(Slashes(p)), Slashes(rel);
    hide StripRight, Slashes, Matches, Parse, Literal;
    assert q[0..] == q;
    LiteralParse(q, 0, r, classes);
    ParseAppend(q, 0);
    if FnMatch(r, q + BELOW, classes) {
      var k := MatchSplit(Parse(q, 0), [Lit('/'), Star], r, classes);
      LiteralParse(q, 0, r[..k], classes);
      BelowIsSlash(r[k..], classes);
    }
    if q + "/" <= r {
      var x := r[|q| + 1..];
      BelowMatches(x, classes);
      LiteralParse(q, 0, q, classes);
      MatchConcat(Parse(q, 0), [Lit('/'), Star], q, ['/'] + x, classes);
      assert r == q + (['/'] + x);
    }
  }

  /** The patterns every file request is checked against as well. */
  const GIT := [".git", ".git/**", "**/.git", "**/.git/**"]

  lemma GitItself(classes: Classes)
    ensures Covers(".git", ".git", classes)
  {
    assert Slashes(".git") == ".git" && StripRight(".git") == ".git";
    LiteralCoversIff(".git", ".git", classes);
  }

  lemma TwoStars(rest: seq<Token>, s: string, t: string, classes: Classes)
    requires Matches(rest, t, classes)
    ensures Matches([Star, Star] + rest, s + t, classes)
  {
    hide Matches;
    StarTakesAll(s, classes);
    StarTakesAll("", classes);
    MatchConcat([Star], [Star], s, "", classes);
    assert s + "" == s && [Star] + [Star] == [Star, Star];
    MatchConcat([Star, Star], rest, s, t, classes);
  }

  lemma GitPattern(p: string)
    requires p == "**/.git"
    ensures Parse(p, 0) == [Star, Star] + Parse(p, 2) && p[2..] == "/.git"
  {
    hide Close;
    assert Head(p, 0) == Star && Head(p, 1) == Star && Next(p, 0) == 1 && Next(p, 1) == 2;
    assert Parse(p, 0) == [Star] + Parse(p, 1) && Parse(p, 1) == [Star] + Parse(p, 2);
  }

  lemma GitBelow(above: string, classes: Classes)
    ensures Covers(above + "/.git", "**/.git", classes)
  {
    var p := "**/.git";
    assert Slashes(p) == p && StripRight(p) == p;
    assert Slashes(above + "/.git") == Slashes(above) + "/.git";
    hide Matches, Parse, Slashes, StripRight;
    GitPattern(p);
    LiteralTail(p, 2, "/.git", classes);
    TwoStars(Parse(p, 2), Slashes(above), "/.git", classes);
  }

  lemma {:induction false} LiteralTail(p: string, i: nat, s: string, classes: Classes)
    requires i <= |p| && p[i..] == s && Literal(s)
    ensures Matches(Parse(p, i), s, classes)
    decreases |p| - i
  {
    if i < |p| {
      assert p[i] == s[0] && s[0] in s;
      assert p[i + 1..] == s[1..];
      assert Literal(s[1..]) by { assert forall c | c in s[1..] :: c in s; }
      LiteralTail(p, i + 1, s[1..], classes);
      assert Parse(p, i)[1..] == Parse(p, i + 1);
    }
  }

  /** No file request reaches a `.git` directory at any depth. */
  lemma GitIsForbidden(above: string, below: string, forbidden: seq<string>, classes: Classes)
    requires forall p | p in GIT :: p in forbidden
    ensures PathMatches(".git", forbidden, classes) && PathMatches(".git/" + below, forbidden, classes)
    ensures PathMatches(above + "/.git", forbidden, classes) && PathMatches(above + "/.git" + "/" + below, forbidden, classes)
  {
    hide Covers;
    assert GIT[0] in GIT && GIT[2] in GIT;
    GitItself(classes);
    GitBelow(above, classes);
    MatchedSubtree(".git", below, forbidden, classes);
    assert ".git" + "/" + below == ".git/" + below;
    MatchedSubtree(above + "/.git", below, forbidden, classes);
  }
}
