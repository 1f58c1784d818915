/** What a scope pattern matches, said of its text and of the path: one piece of
    the path for every wildcard, class or character of the pattern. */
module GlobMeaning {
  import opened Strings
  import opened Glob

  // --------------------------------------------------------- how a pattern reads

  /** The text a token was read from. */
  function Written(t: Token): string {
    match t
    case Star => "*"
    case AnyOne => "?"
    case Class(body) => "[" + body + "]"
    case Lit(c) => [c]
  }

  function Texts(ts: seq<Token>): string { if ts == [] then "" else Written(ts[0]) + Texts(ts[1..]) }

  /** The body ends at the first `]` that can end it: not a leading one, and not
      one after a leading `!`. */
  predicate Closes(body: string) {
    var skip := if body != "" && body[0] == '!' then 1 else 0;
    |body| > skip && forall j | skip < j < |body| :: body[j] != ']'
  }

  /** A bracket opened at `i` is closed at `k`. */
  predicate ClosedAt(p: string, i: nat, k: nat) {
    i < k < |p| && p[k] == ']' && Closes(p[i + 1..k])
  }

  lemma CloseIsFirst(p: string, i: nat)
    requires i < |p| && p[i] == '['
    ensures Close(p, i + 1) < |p| ==> ClosedAt(p, i, Close(p, i + 1))
    ensures forall k: nat | ClosedAt(p, i, k) :: k == Close(p, i + 1)
  {
    var k := Close(p, i + 1);
    var j := if i + 1 < |p| && p[i + 1] == '!' then i + 2 else i + 1;
    if k < |p| {
      var body := p[i + 1..k];
      assert forall x | 0 <= x < |body| :: body[x] == p[i + 1 + x];
      assert k >= j;
    }
    forall m: nat | ClosedAt(p, i, m) ensures m == k {
      var body := p[i + 1..m];
      assert forall x | 0 <= x < |body| :: body[x] == p[i + 1 + x];
      assert p[m] == ']';
      assert forall x | j < x < m :: p[x] == body[x - i - 1];
    }
  }

  /** A star, a question mark, a bracket that closes and its body, or the
      character itself. */
  lemma HeadReads(p: string, i: nat)
    requires i < |p|
    ensures match Head(p, i)
            case Star => p[i] == '*' && Next(p, i) == i + 1
            case AnyOne => p[i] == '?' && Next(p, i) == i + 1
            case Class(body) => p[i] == '[' && ClosedAt(p, i, Next(p, i) - 1) && body == p[i + 1..Next(p, i) - 1]
            case Lit(c) => c == p[i] && c != '*' && c != '?' && (c == '[' ==> forall k: nat :: !ClosedAt(p, i, k)) && Next(p, i) == i + 1
  {
    if p[i] == '[' { CloseIsFirst(p, i); }
  }

  lemma HeadText(p: string, i: nat)
    requires i < |p|
    ensures Written(Head(p, i)) == p[i..Next(p, i)]
  {
    hide Head, Next, Closes;
    HeadReads(p, i);
    match Head(p, i)
    case Class(body) => BracketText(p, i, Next(p, i) - 1);
    case _ => assert p[i..i + 1] == [p[i]];
  }

  lemma BracketText(p: string, i: nat, k: nat)
    requires i < k < |p| && p[i] == '[' && p[k] == ']'
    ensures "[" + p[i + 1..k] + "]" == p[i..k + 1]
  {
    assert p[i..k + 1] == [p[i]] + p[i + 1..k] + [p[k]];
  }

  /** The tokens of a pattern are its text, cut up. */
  lemma {:induction false} ParseIsAPartition(p: string, i: nat)
    requires i <= |p|
    ensures Texts(Parse(p, i)) == p[i..]
    decreases |p| - i
  {
    hide Head, Next, Written;
    if i < |p| {
      HeadText(p, i);
      var n := Next(p, i);
      ParseIsAPartition(p, n);
      assert ([Head(p, i)] + Parse(p, n))[1..] == Parse(p, n);
      assert p[i..] == p[i..n] + p[n..];
    }
  }

  // ------------------------------------------------------------ what it matches

  /** A star takes any text, also with separators; a question mark any one
      character; a class one of its characters; a character itself. */
  predicate Fits(t: Token, part: string, classes: Classes) {
    match t
    case Star => true
    case AnyOne => |part| == 1
    case Class(body) => |part| == 1 && classes(body, part[0])
    case Lit(c) => part == [c]
  }

  function Joined(parts: seq<string>): string { if parts == [] then "" else parts[0] + Joined(parts[1..]) }

  ghost predicate Pieces(ts: seq<Token>, s: string, parts: seq<string>, classes: Classes) {
    |parts| == |ts| && Joined(parts) == s && forall i | 0 <= i < |ts| :: Fits(ts[i], parts[i], classes)
  }

  lemma {:induction false} MatchHasPieces(ts: seq<Token>, s: string, classes: Classes) returns (parts: seq<string>)
    requires Matches(ts, s, classes)
    ensures Pieces(ts, s, parts, classes)
    decreases |ts| + |s|
  {
    if ts == [] {
      parts := [];
    } else if ts[0] == Star && !Matches(ts[1..], s, classes) {
      var more := MatchHasPieces(ts, s[1..], classes);
      parts := [[s[0]] + more[0]] + more[1..];
      assert s == [s[0]] + s[1..] && parts[1..] == more[1..];
      assert Joined(parts) == [s[0]] + more[0] + Joined(more[1..]);
    } else {
      var first := if ts[0] == Star then "" else [s[0]];
      var more := MatchHasPieces(ts[1..], s[|first|..], classes);
      parts := [first] + more;
      assert s == first + s[|first|..] && parts[1..] == more;
      assert forall i | 1 <= i < |ts| :: Fits(ts[i], parts[i], classes) by {
        assert forall i | 1 <= i < |ts| :: ts[i] == ts[1..][i - 1] && parts[i] == more[i - 1];
      }
    }
  }

  lemma {:induction false} PiecesMatch(ts: seq<Token>, s: string, parts: seq<string>, classes: Classes)
    requires Pieces(ts, s, parts, classes)
    ensures Matches(ts, s, classes)
    decreases |ts|
  {
    if ts != [] {
      var rest := Joined(parts[1..]);
      assert forall i | 0 <= i < |ts| - 1 :: ts[1..][i] == ts[i + 1] && parts[1..][i] == parts[i + 1];
      PiecesMatch(ts[1..], rest, parts[1..], classes);
      OneFits(ts[0], parts[0], classes);
      MatchConcat([ts[0]], ts[1..], parts[0], rest, classes);
      assert [ts[0]] + ts[1..] == ts;
    }
  }

  lemma OneFits(t: Token, part: string, classes: Classes)
    requires Fits(t, part, classes)
    ensures Matches([t], part, classes)
  {
    if t == Star {
      StarTakesAll(part, classes);
    } else {
      assert [t][1..] == [] && part[1..] == "";
    }
  }

  /** A text is matched if and only if it can be cut into one fitting piece for
      each token of the pattern, in order. */
  lemma MatchesIff(ts: seq<Token>, s: string, classes: Classes)
    ensures Matches(ts, s, classes) <==> exists parts :: Pieces(ts, s, parts, classes)
  {
    if Matches(ts, s, classes) { var parts := MatchHasPieces(ts, s, classes); }
    if parts :| Pieces(ts, s, parts, classes) { PiecesMatch(ts, s, parts, classes); }
  }

  /** The pattern without trailing slashes. */
  ghost predicate Base(p: string, q: string) {
    && |q| <= |p| && (q == "" || q[|q| - 1] != '/')
    && (forall i | 0 <= i < |q| :: q[i] == if p[i] == '\\' then '/' else p[i])
    && (forall i | |q| <= i < |p| :: p[i] == '/' || p[i] == '\\')
  }

  lemma {:induction false} StripIsBase(p: string)
    ensures Base(p, StripRight(Slashes(p)))
    decreases |p|
  {
    if p != "" && Slashes(p)[|p| - 1] == '/' {
      assert Slashes(p)[..|p| - 1] == Slashes(p[..|p| - 1]);
      StripIsBase(p[..|p| - 1]);
    }
  }

  /** A path is covered by a list of patterns if and only if for one of them,
      taken without trailing slashes and with slashes for backslashes, the path
      matches it or matches it with anything beneath. */
  lemma CoveredIff(rel: string, patterns: seq<string>, classes: Classes)
    ensures PathMatches(rel, patterns, classes) <==>
              exists p, q :: p in patterns && Base(p, q)
                && (Matches(Parse(q, 0), Slashes(rel), classes) || Matches(Parse(q, 0) + [Lit('/'), Star], Slashes(rel), classes))
  {
    if p :| p in patterns && Covers(rel, p, classes) {
      StripIsBase(p);
      ParseAppend(StripRight(Slashes(p)), 0);
    }
    if p, q :| p in patterns && Base(p, q)
                && (Matches(Parse(q, 0), Slashes(rel), classes) || Matches(Parse(q, 0) + [Lit('/'), Star], Slashes(rel), classes)) {
      StripIsBase(p);
      OneBase(p, q, StripRight(Slashes(p)));
      ParseAppend(q, 0);
      assert Covers(rel, p, classes);
    }
  }

  lemma OneBase(p: string, q: string, r: string)
    requires Base(p, q) && Base(p, r)
    ensures q == r
  {
  }
}
