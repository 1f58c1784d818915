/** The literal argv tokenizer for commands under approval: blanks separate
    tokens, a whole token may be quoted, everything ambiguous is refused. */
module CommandTokens {
  import opened Strings

  datatype Refusal = EmptyCommand | ControlCharacter | AmbiguousQuoting | PartialTokenQuoting

  datatype Lexed = Tokens(tokens: seq<string>) | Refused(why: Refusal)

  predicate Blank(c: char) { c == ' ' || c == '\t' }
  predicate Quote(c: char) { c == '"' || c == '\'' }
  predicate Control(c: char) { (c as int < 32 && c != '\t') || c as int == 127 }

  predicate HasControl(s: string) { exists i :: 0 <= i < |s| && Control(s[i]) }
  predicate HasQuote(s: string) { exists i :: 0 <= i < |s| && Quote(s[i]) }

  function FindBlank(s: string, i: nat): (k: nat)
    requires i <= |s|
    ensures i <= k <= |s| && (k < |s| ==> Blank(s[k]))
    ensures forall j | i <= j < k :: !Blank(s[j])
    decreases |s| - i
  {
    if i == |s| || Blank(s[i]) then i else FindBlank(s, i + 1)
  }

  function Cons(token: string, rest: Lexed): Lexed {
    if rest.Tokens? then Tokens([token] + rest.tokens) else rest
  }

  /** The tokens of `s` from position `i` on. */
  function Lex(s: string, i: nat): Lexed
    requires i <= |s|
    decreases |s| - i
  {
    if i == |s| then Tokens([])
    else if Blank(s[i]) then Lex(s, i + 1)
    else if Quote(s[i]) then
      var end := FindChar(s, s[i], i + 1);
      if end == |s| || s[end - 1] == '\\' then Refused(AmbiguousQuoting)
      else if end + 1 < |s| && !Blank(s[end + 1]) then Refused(PartialTokenQuoting)
      else Cons(s[i + 1..end], Lex(s, end + 1))
    else
      var end := FindBlank(s, i);
      if HasQuote(s[i..end]) then Refused(PartialTokenQuoting) else Cons(s[i..end], Lex(s, end))
  }

  function Tokenize(command: string): Lexed {
    if command == "" then Refused(EmptyCommand)
    else if HasControl(command) then Refused(ControlCharacter)
    else if Lex(command, 0) == Tokens([]) then Refused(EmptyCommand)
    else Lex(command, 0)
  }

  /** What the loop has collected, put in front of what is still to come. */
  function Prepend(done: seq<string>, rest: Lexed): Lexed {
    if rest.Tokens? then Tokens(done + rest.tokens) else rest
  }

  lemma PrependCons(done: seq<string>, token: string, rest: Lexed)
    ensures Prepend(done + [token], rest) == Prepend(done, Cons(token, rest))
  {
    if rest.Tokens? { assert done + [token] + rest.tokens == done + ([token] + rest.tokens); }
  }

  /** The tokenizer as it runs: one index over the command. */
  method SplitCommand(command: string) returns (r: Lexed)
    ensures r == Tokenize(command)
  {
    if command == "" { return Refused(EmptyCommand); }
    if HasControl(command) { return Refused(ControlCharacter); }
    var tokens: seq<string>, i := [], 0;
    while i < |command|
      invariant i <= |command|
      invariant Lex(command, 0) == Prepend(tokens, Lex(command, i))
    {
      if Blank(command[i]) {
        i := i + 1;
      } else if Quote(command[i]) {
        var end := FindChar(command, command[i], i + 1);
        if end == |command| || command[end - 1] == '\\' { return Refused(AmbiguousQuoting); }
        if end + 1 < |command| && !Blank(command[end + 1]) { return Refused(PartialTokenQuoting); }
        PrependCons(tokens, command[i + 1..end], Lex(command, end + 1));
        tokens, i := tokens + [command[i + 1..end]], end + 1;
      } else {
        var end := FindBlank(command, i);
        if HasQuote(command[i..end]) { return Refused(PartialTokenQuoting); }
        PrependCons(tokens, command[i..end], Lex(command, end));
        tokens, i := tokens + [command[i..end]], end;
      }
    }
    if tokens == [] { return Refused(EmptyCommand); }
    return Tokens(tokens);
  }

  // ------------------------------------------------------------- the printer

  predicate Quotable(t: string) {
    && !HasControl(t)
    && ('"' !in t || '\'' !in t)
    && (t == "" || t[|t| - 1] != '\\')
  }

  predicate Bare(t: string) {
    t != "" && !HasControl(t) && !HasQuote(t) && forall i | 0 <= i < |t| :: !Blank(t[i])
  }

  predicate Expressible(t: string) { Quotable(t) || Bare(t) }

  function Show(t: string): string {
    if !Quotable(t) then t
    else if '"' !in t then ['"'] + t + ['"']
    else ['\''] + t + ['\'']
  }

  function Print(ts: seq<string>): string {
    if ts == [] then "" else if |ts| == 1 then Show(ts[0]) else Show(ts[0]) + [' '] + Print(ts[1..])
  }

  lemma FindCharIs(s: string, c: char, i: nat, k: nat)
    requires i <= k < |s| && s[k] == c && forall j | i <= j < k :: s[j] != c
    ensures FindChar(s, c, i) == k
  {
    var m := FindChar(s, c, i);
    assert s[k] == c;
  }

  lemma FindBlankIs(s: string, i: nat, k: nat)
    requires i <= k <= |s| && (k < |s| ==> Blank(s[k])) && forall j | i <= j < k :: !Blank(s[j])
    ensures FindBlank(s, i) == k
  {
    var m := FindBlank(s, i);
  }

  lemma LexQuoted(s: string, i: nat, q: char, t: string)
    requires Quote(q) && q !in t && (t == "" || t[|t| - 1] != '\\')
    requires i + |t| + 2 <= |s| && s[i] == q && s[i + 1..i + 1 + |t|] == t && s[i + 1 + |t|] == q
    requires i + |t| + 2 < |s| ==> Blank(s[i + |t| + 2])
    ensures Lex(s, i) == Cons(t, Lex(s, i + |t| + 2))
  {
    var end := i + 1 + |t|;
    forall j | i + 1 <= j < end ensures s[j] != q {
      assert s[j] == s[i + 1..end][j - i - 1] && t[j - i - 1] in t;
    }
    FindCharIs(s, q, i + 1, end);
    if t != "" { assert s[end - 1] == s[i + 1..end][|t| - 1]; }
  }

  lemma LexBare(s: string, i: nat, t: string)
    requires Bare(t) && i + |t| <= |s| && s[i..i + |t|] == t
    requires i + |t| < |s| ==> Blank(s[i + |t|])
    ensures Lex(s, i) == Cons(t, Lex(s, i + |t|))
  {
    var end := i + |t|;
    forall j | i <= j < end ensures s[j] == t[j - i] { assert s[j] == s[i..end][j - i]; }
    assert !Blank(t[0]) && !Quote(t[0]);
    FindBlankIs(s, i, end);
  }

  /** Lexing one shown token off the front of what follows it. */
  lemma LexShown(s: string, i: nat, t: string)
    requires Expressible(t) && i + |Show(t)| <= |s| && s[i..i + |Show(t)|] == Show(t)
    requires i + |Show(t)| < |s| ==> Blank(s[i + |Show(t)|])
    ensures Lex(s, i) == Cons(t, Lex(s, i + |Show(t)|))
  {
    hide Lex;
    if Quotable(t) {
      var q := if '"' !in t then '"' else '\'';
      Parts3(s, i, q, t);
      LexQuoted(s, i, q, t);
    } else {
      LexBare(s, i, t);
    }
  }

  lemma Parts3(s: string, i: nat, q: char, t: string)
    requires i + |t| + 2 <= |s| && s[i..i + |t| + 2] == [q] + t + [q]
    ensures s[i] == q && s[i + 1..i + 1 + |t|] == t && s[i + 1 + |t|] == q
  {
    var cut := s[i..i + |t| + 2];
    assert s[i] == cut[0] && s[i + 1 + |t|] == cut[|t| + 1];
    forall k | 0 <= k < |t| ensures s[i + 1 + k] == t[k] { assert cut[k + 1] == s[i + k + 1]; }
    assert s[i + 1..i + 1 + |t|] == t;
  }

  lemma Parts(s: string, i: nat, a: string, b: string)
    requires i <= |s| && s[i..] == a + [' '] + b
    ensures i + |a| < |s| && s[i..i + |a|] == a && s[i + |a|] == ' ' && s[i + |a| + 1..] == b
  {
    assert s[i..i + |a|] == s[i..][..|a|] && s[i + |a|] == s[i..][|a|] && s[i + |a| + 1..] == s[i..][|a| + 1..];
  }

  lemma PrintParts(ts: seq<string>)
    requires ts != []
    ensures Print(ts) == if |ts| == 1 then Show(ts[0]) else Show(ts[0]) + [' '] + Print(ts[1..])
  {
  }

  lemma PrintNothing()
    ensures Print([]) == ""
  {
  }

  lemma LexBlank(s: string, i: nat)
    requires i < |s| && s[i] == ' '
    ensures Lex(s, i) == Lex(s, i + 1)
  {
  }

  lemma LexEnd(s: string)
    ensures Lex(s, |s|) == Tokens([])
  {
  }

  lemma {:induction false} LexPrinted(s: string, i: nat, ts: seq<string>)
    requires forall t | t in ts :: Expressible(t)
    requires i <= |s| && s[i..] == Print(ts)
    ensures Lex(s, i) == Tokens(ts)
    decreases |ts|
  {
    hide Lex, Show, Expressible, Print;
    if ts == [] {
      PrintNothing();
      assert i == |s|;
      LexEnd(s);
    } else {
      var t, rest := ts[0], ts[1..];
      var end := i + |Show(t)|;
      PrintParts(ts);
      if rest != [] {
        Parts(s, i, Show(t), Print(rest));
        LexPrinted(s, end + 1, rest);
        LexBlank(s, end);
      } else {
        assert s[i..end] == s[i..];
        LexEnd(s);
      }
      LexShown(s, i, t);
      assert [t] + rest == ts;
    }
  }

  lemma ShownHasNoControl(t: string)
    requires Expressible(t)
    ensures !HasControl(Show(t)) && Show(t) != ""
  {
    var show := Show(t);
    if Quotable(t) {
      forall j | 0 <= j < |show| ensures !Control(show[j]) {
        if 1 <= j < |t| + 1 { assert show[j] == t[j - 1]; }
      }
    }
  }

  lemma {:induction false} PrintedHasNoControl(ts: seq<string>)
    requires forall t | t in ts :: Expressible(t)
    ensures !HasControl(Print(ts)) && (ts != [] ==> Print(ts) != "")
  {
    if ts != [] {
      ShownHasNoControl(ts[0]);
      if |ts| > 1 {
        PrintedHasNoControl(ts[1..]);
        var a, b := Show(ts[0]), Print(ts[1..]);
        forall j | 0 <= j < |Print(ts)| ensures !Control(Print(ts)[j]) {
          if j < |a| { assert Print(ts)[j] == a[j]; } else if j > |a| { assert Print(ts)[j] == b[j - |a| - 1]; }
        }
      }
    }
  }

  // ------------------------------------------------------------ main theorems

  /** The tokenizer undoes its printer. */
  lemma RoundTrip(ts: seq<string>)
    requires ts != [] && forall t | t in ts :: Expressible(t)
    ensures Tokenize(Print(ts)) == Tokens(ts)
  {
    PrintedHasNoControl(ts);
    assert Print(ts)[0..] == Print(ts);
    LexPrinted(Print(ts), 0, ts);
  }

  lemma SliceHasNoControl(s: string, a: nat, b: nat)
    requires !HasControl(s) && a <= b <= |s|
    ensures !HasControl(s[a..b])
  {
    assert forall j | 0 <= j < b - a :: s[a..b][j] == s[a + j];
  }

  lemma {:induction false} LexedAreExpressible(s: string, i: nat)
    requires i <= |s| && !HasControl(s) && Lex(s, i).Tokens?
    ensures forall t | t in Lex(s, i).tokens :: Expressible(t)
    decreases |s| - i
  {
    if i == |s| {
    } else if Blank(s[i]) {
      LexedAreExpressible(s, i + 1);
    } else if Quote(s[i]) {
      var end := FindChar(s, s[i], i + 1);
      SliceHasNoControl(s, i + 1, end);
      var token := s[i + 1..end];
      assert forall j | 0 <= j < |token| :: token[j] == s[i + 1 + j];
      assert Quotable(token);
      LexedAreExpressible(s, end + 1);
    } else {
      var end := FindBlank(s, i);
      SliceHasNoControl(s, i, end);
      assert Bare(s[i..end]);
      LexedAreExpressible(s, end);
    }
  }

  /** Exactly which argument lists a command can stand for: nonempty ones whose
      tokens are plain words, or avoid one quote and do not end in a backslash;
      never with a control character other than a tab. */
  lemma ReachableIff(ts: seq<string>)
    ensures (exists command: string :: Tokenize(command) == Tokens(ts)) <==> ts != [] && forall t | t in ts :: Expressible(t)
  {
    if command: string :| Tokenize(command) == Tokens(ts) {
      LexedAreExpressible(command, 0);
    }
    if ts != [] && forall t | t in ts :: Expressible(t) {
      RoundTrip(ts);
    }
  }
}
