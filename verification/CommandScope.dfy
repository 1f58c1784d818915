/** One literal command under approval: no shell syntax, at most one known
    wrapper and one leading directory change, and a working directory inside
    the worker's tree. */
module CommandScope {
  import opened OperationStore
  import opened PathScope
  import opened Strings
  import CT = CommandTokens

  /** The tree, the worker's root, and how a path text is read. */
  datatype Place = Place(fs: Tree, root: Path, links: nat, parse: string -> Option<Named>)

  datatype Ran = Accepted(tokens: seq<string>, cwd: Path) | Denied

  predicate ShellControl(c: char) {
    c in {'\n', '\r', ';', '|', '<', '>', '`', '$', '%', '^', '#', '\0'}
  }

  predicate Chaining(c: char) { c == '&' || c == '(' || c == ')' }

  predicate AnyControl(s: string) { exists i :: 0 <= i < |s| && ShellControl(s[i]) }
  predicate AnyChaining(s: string) { exists i :: 0 <= i < |s| && Chaining(s[i]) }

  function Lower(s: string): string {
    seq(|s|, i requires 0 <= i < |s| => if 'A' <= s[i] <= 'Z' then s[i] - 'A' + 'a' else s[i])
  }

  const SHELLS := {"sh", "bash", "zsh", "/bin/sh", "/bin/bash", "/bin/zsh"}
  const POWERSHELLS := {"powershell", "powershell.exe", "pwsh", "pwsh.exe"}
  const DIRECTORY_CHANGES := {"cd", "chdir", "set-location"}

  predicate PowerShellFlags(flags: seq<string>) {
    && flags != [] && Lower(flags[|flags| - 1]) in {"-command", "-c"}
    && forall i | 0 <= i < |flags| - 1 :: Lower(flags[i]) in {"-noprofile", "-noninteractive"}
  }

  /** What a known wrapper runs; anything else runs as it stands. */
  function Unwrap(command: string, tokens: seq<string>): string
    requires tokens != []
  {
    if tokens[0] in SHELLS && |tokens| == 3 && tokens[1] in {"-c", "-lc"} then tokens[2]
    else if Lower(tokens[0]) in POWERSHELLS && |tokens| >= 3 && PowerShellFlags(tokens[1..|tokens| - 1]) then tokens[|tokens| - 1]
    else command
  }

  /** First `&&` from `i` on; |s| when there is none. */
  function FindAnd(s: string, i: nat): (k: nat)
    requires i <= |s|
    ensures i <= k <= |s| && (k < |s| ==> k + 2 <= |s| && s[k] == '&' && s[k + 1] == '&')
    decreases |s| - i
  {
    if i == |s| then i
    else if i + 2 <= |s| && s[i] == '&' && s[i + 1] == '&' then i
    else FindAnd(s, i + 1)
  }

  /** A confirmed directory of the tree. */
  function Directory(at: Place, cwd: Path, arg: string): Option<Path> {
    match at.parse(arg)
    case None => None
    case Some(name) =>
      var s := Target(at.fs, at.root, cwd, name.absolute, name.parts, at.links);
      if s.State? && IsDir(at.fs, s.current) then Some(s.current) else None
  }

  function Literal(at: Place, cwd: Path, command: string): Ran {
    if AnyChaining(command) then Denied else
    match CT.Tokenize(command)
    case Refused(_) => Denied
    case Tokens(tokens) =>
      if tokens == [] || Lower(tokens[0]) in DIRECTORY_CHANGES then Denied else Accepted(tokens, cwd)
  }

  /** After unwrapping: `cd dir && command`, or one command. */
  function Inner(at: Place, cwd: Path, command: string): Ran {
    var k := FindAnd(command, 0);
    if k == |command| then Literal(at, cwd, command)
    else if FindAnd(command, k + 2) < |command| then Denied
    else
      match CT.Tokenize(command[..k])
      case Refused(_) => Denied
      case Tokens(prefix) =>
        if |prefix| != 2 || Lower(prefix[0]) != "cd" then Denied else
        match Directory(at, cwd, prefix[1])
        case None => Denied
        case Some(dir) => Literal(at, dir, command[k + 2..])
  }

  /** The whole reading of one command. */
  function CommandOf(at: Place, cwd: Path, command: string): Ran {
    match CT.Tokenize(command)
    case Refused(_) => Denied
    case Tokens(tokens) =>
      if tokens == [] || AnyControl(command) then Denied else Inner(at, cwd, Unwrap(command, tokens))
  }

  // ------------------------------------------------------------- consequences

  predicate Within(t: string, s: string) { forall i | 0 <= i < |t| :: t[i] in s }

  lemma {:induction false} TokensComeFrom(s: string, i: nat)
    requires i <= |s| && CT.Lex(s, i).Tokens?
    ensures forall t | t in CT.Lex(s, i).tokens :: Within(t, s)
    decreases |s| - i
  {
    if i == |s| {
    } else if CT.Blank(s[i]) {
      TokensComeFrom(s, i + 1);
    } else if CT.Quote(s[i]) {
      var end := FindChar(s, s[i], i + 1);
      TokensComeFrom(s, end + 1);
      SliceWithin(s, i + 1, end);
    } else {
      var end := CT.FindBlank(s, i);
      TokensComeFrom(s, end);
      SliceWithin(s, i, end);
    }
  }

  lemma SliceWithin(s: string, a: nat, b: nat)
    requires a <= b <= |s|
    ensures Within(s[a..b], s)
  {
    var t := s[a..b];
    assert forall i | 0 <= i < |t| :: t[i] == s[a + i];
  }

  /** A token, or a text cut from a text, has none of what the whole has none of. */
  predicate Free(s: string) { !AnyControl(s) && !AnyChaining(s) }

  lemma WithinIsFree(t: string, s: string)
    requires Within(t, s)
    ensures !AnyControl(s) ==> !AnyControl(t)
    ensures !AnyChaining(s) ==> !AnyChaining(t)
  {
    forall i | 0 <= i < |t| ensures ShellControl(t[i]) ==> AnyControl(s) {
      assert t[i] in s;
      var j :| 0 <= j < |s| && s[j] == t[i];
    }
    forall i | 0 <= i < |t| ensures Chaining(t[i]) ==> AnyChaining(s) {
      assert t[i] in s;
      var j :| 0 <= j < |s| && s[j] == t[i];
    }
  }

  lemma LiteralIsFree(at: Place, cwd: Path, command: string)
    requires !AnyControl(command) && Literal(at, cwd, command).Accepted?
    ensures var r := Literal(at, cwd, command);
            r.tokens != [] && r.cwd == cwd && Lower(r.tokens[0]) !in DIRECTORY_CHANGES && forall t | t in r.tokens :: Free(t)
  {
    TokensComeFrom(command, 0);
    var r := Literal(at, cwd, command);
    forall t | t in r.tokens ensures Free(t) { WithinIsFree(t, command); }
  }

  lemma DirectoryIsContained(at: Place, cwd: Path, arg: string)
    requires TreeOk(at.fs) && IsDir(at.fs, at.root) && Directory(at, cwd, arg).Some?
    ensures at.root <= Directory(at, cwd, arg).value && IsDir(at.fs, Directory(at, cwd, arg).value)
  {
    var name := at.parse(arg).value;
    TargetIsContained(at.fs, at.root, cwd, name.absolute, name.parts, at.links, 0);
  }

  /** An accepted command is plain arguments without any shell syntax, not a
      directory change, to be run in a directory of the worker's own tree. */
  lemma AcceptedIsPlain(at: Place, cwd: Path, command: string)
    requires TreeOk(at.fs) && IsDir(at.fs, at.root) && at.root <= cwd && IsDir(at.fs, cwd)
    requires CommandOf(at, cwd, command).Accepted?
    ensures var r := CommandOf(at, cwd, command);
            && r.tokens != [] && Lower(r.tokens[0]) !in DIRECTORY_CHANGES && (forall t | t in r.tokens :: Free(t))
            && at.root <= r.cwd && IsDir(at.fs, r.cwd)
  {
    hide Target, TreeOk;
    var tokens := CT.Tokenize(command).tokens;
    TokensComeFrom(command, 0);
    var inner := Unwrap(command, tokens);
    assert Within(command, command);
    assert Within(inner, command);
    WithinIsFree(inner, command);
    var k := FindAnd(inner, 0);
    if k == |inner| {
      LiteralIsFree(at, cwd, inner);
    } else {
      SliceWithin(inner, k + 2, |inner|);
      WithinIsFree(inner[k + 2..], inner);
      var prefix := CT.Tokenize(inner[..k]).tokens;
      DirectoryIsContained(at, cwd, prefix[1]);
      LiteralIsFree(at, Directory(at, cwd, prefix[1]).value, inner[k + 2..]);
    }
  }

  /** A known wrapper around a literal command is that command: the same
      arguments in the same directory, or the same refusal. */
  lemma WrapperIsTransparent(at: Place, cwd: Path, shell: string, flag: string, command: string)
    requires shell in SHELLS && flag in {"-c", "-lc"}
    requires CT.Quotable(command) && !AnyControl(command)
    requires CT.Tokenize(command).Tokens? && Unwrap(command, CT.Tokenize(command).tokens) == command
    ensures CommandOf(at, cwd, CT.Print([shell, flag, command])) == CommandOf(at, cwd, command)
  {
    var ts := [shell, flag, command];
    WrapperWordsAreQuotable(shell, flag);
    CT.RoundTrip(ts);
    var wrapped := CT.Print(ts);
    PrintedHasNoShellControl(ts);
    hide CT.Tokenize, CT.Print, Inner;
    assert Unwrap(wrapped, ts) == command;
  }

  /** A PowerShell wrapper likewise, with its harmless flags. */
  lemma PowerShellIsTransparent(at: Place, cwd: Path, shell: string, flags: seq<string>, command: string)
    requires Lower(shell) in POWERSHELLS && shell !in SHELLS && PowerShellFlags(flags)
    requires forall w | w in [shell] + flags + [command] :: CT.Quotable(w) && !AnyControl(w)
    requires CT.Tokenize(command).Tokens? && Unwrap(command, CT.Tokenize(command).tokens) == command
    ensures CommandOf(at, cwd, CT.Print([shell] + flags + [command])) == CommandOf(at, cwd, command)
  {
    var ts := [shell] + flags + [command];
    assert CT.Tokenize(command).tokens != [];
    hide CT.Tokenize, CT.Print, Inner, Lower, PowerShellFlags, AnyControl;
    assert command in ts;
    assert flags != [] by { FlagsAreSome(flags); }
    CT.RoundTrip(ts);
    PrintedHasNoShellControl(ts);
    assert ts[0] == shell && ts[1..|ts| - 1] == flags && ts[|ts| - 1] == command;
    assert Unwrap(CT.Print(ts), ts) == command;
  }

  lemma FlagsAreSome(flags: seq<string>)
    requires PowerShellFlags(flags)
    ensures flags != []
  {
  }

  // ---------------------------------------------------- the reading, exactly

  predicate AndAt(s: string, i: nat) { i + 2 <= |s| && s[i] == '&' && s[i + 1] == '&' }

  lemma {:induction false} FirstAnd(s: string, i: nat)
    requires i <= |s|
    ensures forall j: nat | i <= j < FindAnd(s, i) :: !AndAt(s, j)
    decreases |s| - i
  {
    if i < |s| && !AndAt(s, i) { FirstAnd(s, i + 1); }
  }

  /** One command: these are all its tokens, nothing chains it to another, and
      it does not change the directory. */
  predicate Plain(command: string, tokens: seq<string>) {
    !AnyChaining(command) && CT.Tokenize(command) == CT.Tokens(tokens) && tokens != [] && Lower(tokens[0]) !in DIRECTORY_CHANGES
  }

  /** Alone in the directory it was asked for in, or after one `cd` into a
      confirmed directory. */
  ghost predicate ReadAs(at: Place, cwd: Path, command: string, tokens: seq<string>, dir: Path) {
    || ((forall i: nat :: !AndAt(command, i)) && dir == cwd && Plain(command, tokens))
    || exists k: nat, word, arg ::
         && AndAt(command, k) && (forall i: nat | i < k :: !AndAt(command, i))
         && CT.Tokenize(command[..k]) == CT.Tokens([word, arg]) && Lower(word) == "cd"
         && Directory(at, cwd, arg) == Some(dir) && Plain(command[k + 2..], tokens)
  }

  lemma LiteralIff(at: Place, cwd: Path, command: string, tokens: seq<string>, dir: Path)
    ensures Literal(at, cwd, command) == Accepted(tokens, dir) <==> dir == cwd && Plain(command, tokens)
  {
  }

  lemma ChainedIsNotPlain(command: string, tokens: seq<string>, i: nat)
    requires AndAt(command, i)
    ensures !Plain(command, tokens)
  {
    assert Chaining(command[i]);
  }

  lemma InnerIff(at: Place, cwd: Path, command: string, tokens: seq<string>, dir: Path)
    ensures Inner(at, cwd, command) == Accepted(tokens, dir) <==> ReadAs(at, cwd, command, tokens, dir)
  {
    var k := FindAnd(command, 0);
    FirstAnd(command, 0);
    hide CT.Tokenize, Directory, Literal, Plain, Lower, FindAnd;
    if k == |command| {
      assert forall i: nat :: !AndAt(command, i);
      LiteralIff(at, cwd, command, tokens, dir);
    } else {
      assert AndAt(command, k) && forall i: nat | AndAt(command, i) && (forall j: nat | j < i :: !AndAt(command, j)) :: i == k;
      AfterCdIff(at, cwd, command, k, tokens, dir);
    }
  }

  lemma AfterCdIff(at: Place, cwd: Path, command: string, k: nat, tokens: seq<string>, dir: Path)
    requires AndAt(command, k) && k == FindAnd(command, 0)
    ensures Inner(at, cwd, command) == Accepted(tokens, dir) <==>
              exists word, arg ::
                && CT.Tokenize(command[..k]) == CT.Tokens([word, arg]) && Lower(word) == "cd"
                && Directory(at, cwd, arg) == Some(dir) && Plain(command[k + 2..], tokens)
  {
    hide CT.Tokenize, Directory, Literal, Plain, Lower;
    var rest, later := command[k + 2..], FindAnd(command, k + 2);
    var prefix := CT.Tokenize(command[..k]);
    if later < |command| {
      assert AndAt(rest, later - (k + 2));
      ChainedIsNotPlain(rest, tokens, later - (k + 2));
    } else if prefix.Tokens? && |prefix.tokens| == 2 {
      assert prefix.tokens == [prefix.tokens[0], prefix.tokens[1]];
      if Directory(at, cwd, prefix.tokens[1]).Some? {
        LiteralIff(at, Directory(at, cwd, prefix.tokens[1]).value, rest, tokens, dir);
      }
    }
  }

  /** Exactly when a command is accepted, as which arguments and where: it holds
      no shell syntax, and what it or the wrapper around it runs is one plain
      command, whose tokens are all the arguments, alone or after one `cd`. */
  lemma AcceptedIff(at: Place, cwd: Path, command: string, tokens: seq<string>, dir: Path)
    ensures CommandOf(at, cwd, command) == Accepted(tokens, dir) <==>
              && CT.Tokenize(command).Tokens? && CT.Tokenize(command).tokens != [] && !AnyControl(command)
              && ReadAs(at, cwd, Unwrap(command, CT.Tokenize(command).tokens), tokens, dir)
  {
    if CT.Tokenize(command).Tokens? && CT.Tokenize(command).tokens != [] {
      InnerIff(at, cwd, Unwrap(command, CT.Tokenize(command).tokens), tokens, dir);
    }
    hide CT.Tokenize, ReadAs, Inner, Unwrap;
  }

  lemma WrapperWordsAreQuotable(shell: string, flag: string)
    requires shell in SHELLS && flag in {"-c", "-lc"}
    ensures CT.Quotable(shell) && CT.Quotable(flag) && !AnyControl(shell) && !AnyControl(flag)
  {
  }

  lemma JoinHasNoControl(a: string, b: string)
    requires !AnyControl(a) && !AnyControl(b)
    ensures !AnyControl(a + b)
  {
    var whole := a + b;
    forall i | 0 <= i < |whole| ensures !ShellControl(whole[i]) {
      if i < |a| { assert whole[i] == a[i]; } else { assert whole[i] == b[i - |a|]; }
    }
  }

  lemma ShowHasNoControl(t: string)
    requires !AnyControl(t)
    ensures !AnyControl(CT.Show(t))
  {
    JoinHasNoControl("\"", t);
    JoinHasNoControl("\"" + t, "\"");
    JoinHasNoControl("'", t);
    JoinHasNoControl("'" + t, "'");
  }

  lemma {:induction false} PrintedHasNoShellControl(ts: seq<string>)
    requires forall t | t in ts :: !AnyControl(t)
    ensures !AnyControl(CT.Print(ts))
  {
    if ts != [] {
      ShowHasNoControl(ts[0]);
      if |ts| > 1 {
        PrintedHasNoShellControl(ts[1..]);
        JoinHasNoControl(CT.Show(ts[0]), " ");
        JoinHasNoControl(CT.Show(ts[0]) + " ", CT.Print(ts[1..]));
      }
    }
  }
}
