/** What a command's text has to look like to stand for a list of arguments, said
    of the text itself, and that the tokenizer reads exactly these. */
module CommandLayout {
  import opened Strings
  import opened CommandTokens

  predicate Gap(s: string) { forall i | 0 <= i < |s| :: s[i] == ' ' || s[i] == '\t' }

  /** No quote, no space or tab. */
  predicate Word(s: string) {
    s != "" && forall i | 0 <= i < |s| :: s[i] != ' ' && s[i] != '\t' && s[i] != '"' && s[i] != '\''
  }

  /** The text between two like quotes, which it does not hold, unless the closing
      one would be escaped. */
  predicate Quoted(text: string, token: string, q: char) {
    && (q == '"' || q == '\'') && text == [q] + token + [q]
    && q !in token && (token == "" || token[|token| - 1] != '\\')
  }

  predicate Writes(text: string, token: string) {
    (text == token && Word(token)) || Quoted(text, token, '"') || Quoted(text, token, '\'')
  }

  /** The arguments one after the other, each written as a word or quoted, with
      gaps between them and perhaps around them. */
  ghost predicate Laid(s: string, tokens: seq<string>)
    decreases |tokens|
  {
    if tokens == [] then Gap(s)
    else exists gap: string, text: string, rest: string :: LaidFirst(s, gap, text, rest, tokens)
  }

  ghost predicate LaidFirst(s: string, gap: string, text: string, rest: string, tokens: seq<string>)
    requires tokens != []
    decreases |tokens|, 0
  {
    && s == gap + text + rest && Gap(gap) && Writes(text, tokens[0])
    && (rest != "" ==> rest[0] == ' ' || rest[0] == '\t') && Laid(rest, tokens[1..])
  }

  /** A control character other than a tab. */
  predicate Forbidden(c: char) { (c as int < 32 && c as int != 9) || c as int == 127 }

  // ------------------------------------------------------------ reading a layout

  lemma {:induction false} SkipGap(s: string, i: nat, k: nat)
    requires i <= k <= |s| && Gap(s[i..k])
    ensures Lex(s, i) == Lex(s, k)
    decreases k - i
  {
    if i < k {
      assert s[i] == s[i..k][0];
      var rest := s[i + 1..k];
      assert forall j | 0 <= j < |rest| :: rest[j] == s[i..k][j + 1];
      SkipGap(s, i + 1, k);
    }
  }

  lemma LexText(s: string, i: nat, text: string, token: string)
    requires i + |text| <= |s| && s[i..i + |text|] == text && Writes(text, token) && !HasControl(s)
    requires i + |text| < |s| ==> s[i + |text|] == ' ' || s[i + |text|] == '\t'
    ensures Lex(s, i) == Cons(token, Lex(s, i + |text|))
  {
    hide Lex;
    if text == token && Word(token) {
      SliceHasNoControl(s, i, i + |text|);
      LexBare(s, i, token);
    } else {
      var q := text[0];
      Parts3(s, i, q, token);
      LexQuoted(s, i, q, token);
    }
  }

  lemma Cut(s: string, i: nat, gap: string, text: string, rest: string)
    requires i <= |s| && s[i..] == gap + text + rest
    ensures var k, m := i + |gap|, i + |gap| + |text|;
            m <= |s| && s[i..k] == gap && s[k..m] == text && s[m..] == rest
  {
    var k, m := i + |gap|, i + |gap| + |text|;
    assert s[i..k] == s[i..][..|gap|] && s[k..m] == s[i..][|gap|..|gap| + |text|] && s[m..] == s[i..][|gap| + |text|..];
  }

  lemma {:induction false} LaidIsRead(s: string, i: nat, tokens: seq<string>)
    requires i <= |s| && !HasControl(s) && Laid(s[i..], tokens)
    ensures Lex(s, i) == Tokens(tokens)
    decreases |tokens|
  {
    hide Lex, Gap, Writes, HasControl;
    if tokens == [] {
      assert s[i..|s|] == s[i..];
      SkipGap(s, i, |s|);
      LexEnd(s);
    } else {
      var gap: string, text: string, rest: string :| LaidFirst(s[i..], gap, text, rest, tokens);
      Cut(s, i, gap, text, rest);
      var k, m := i + |gap|, i + |gap| + |text|;
      SkipGap(s, i, k);
      LexText(s, k, text, tokens[0]);
      LaidIsRead(s, m, tokens[1..]);
      assert [tokens[0]] + tokens[1..] == tokens;
    }
  }

  // ------------------------------------------------------- what was read is laid

  lemma WiderGap(c: char, s: string, tokens: seq<string>)
    requires (c == ' ' || c == '\t') && Laid(s, tokens)
    ensures Laid([c] + s, tokens)
  {
    if tokens != [] {
      var gap: string, text: string, rest: string :| LaidFirst(s, gap, text, rest, tokens);
      assert [c] + s == ([c] + gap) + text + rest;
      assert LaidFirst([c] + s, [c] + gap, text, rest, tokens);
    }
  }

  lemma FrontIsLaid(s: string, i: nat, end: nat, token: string, tokens: seq<string>)
    requires i < end <= |s| && Writes(s[i..end], token) && (end < |s| ==> s[end] == ' ' || s[end] == '\t')
    requires Laid(s[end..], tokens)
    ensures Laid(s[i..], [token] + tokens)
  {
    assert s[i..] == "" + s[i..end] + s[end..] && ([token] + tokens)[1..] == tokens;
    assert LaidFirst(s[i..], "", s[i..end], s[end..], [token] + tokens);
  }

  lemma {:induction false} ReadIsLaid(s: string, i: nat)
    requires i <= |s| && Lex(s, i).Tokens?
    ensures Laid(s[i..], Lex(s, i).tokens)
    decreases |s| - i
  {
    if i == |s| {
    } else if Blank(s[i]) {
      ReadIsLaid(s, i + 1);
      assert s[i..] == [s[i]] + s[i + 1..];
      WiderGap(s[i], s[i + 1..], Lex(s, i).tokens);
    } else if Quote(s[i]) {
      var end := FindChar(s, s[i], i + 1);
      var token := s[i + 1..end];
      ReadIsLaid(s, end + 1);
      QuotedText(s, i, end);
      FrontIsLaid(s, i, end + 1, token, Lex(s, end + 1).tokens);
    } else {
      var end := FindBlank(s, i);
      ReadIsLaid(s, end);
      WordText(s, i, end);
      FrontIsLaid(s, i, end, s[i..end], Lex(s, end).tokens);
    }
  }

  lemma QuotedText(s: string, i: nat, end: nat)
    requires i < end < |s| && Quote(s[i]) && end == FindChar(s, s[i], i + 1) && s[end - 1] != '\\'
    ensures Writes(s[i..end + 1], s[i + 1..end])
  {
    var token := s[i + 1..end];
    assert s[i..end + 1] == [s[i]] + token + [s[i]];
    assert forall j | 0 <= j < |token| :: token[j] == s[i + 1 + j];
  }

  lemma WordText(s: string, i: nat, end: nat)
    requires i < |s| && !Blank(s[i]) && end == FindBlank(s, i) && !HasQuote(s[i..end])
    ensures i < end && Writes(s[i..end], s[i..end])
  {
    var token := s[i..end];
    assert forall j | 0 <= j < |token| :: token[j] == s[i + j] && !Quote(token[j]);
  }

  // ------------------------------------------------------------- main theorem

  /** A command stands for a list of arguments if and only if it holds no control
      character but tabs and is laid out as exactly these arguments, at least
      one; every other command is refused. */
  lemma TokensIff(command: string, tokens: seq<string>)
    ensures Tokenize(command) == Tokens(tokens) <==>
              tokens != [] && Laid(command, tokens) && forall i | 0 <= i < |command| :: !Forbidden(command[i])
  {
    assert command[0..] == command;
    assert HasControl(command) <==> exists i :: 0 <= i < |command| && Forbidden(command[i]);
    if Tokenize(command) == Tokens(tokens) { ReadIsLaid(command, 0); }
    if tokens != [] && Laid(command, tokens) && !HasControl(command) {
      LaidIsRead(command, 0, tokens);
      NothingIsLaid(command, tokens);
    }
  }

  lemma NothingIsLaid(command: string, tokens: seq<string>)
    requires tokens != [] && Laid(command, tokens)
    ensures command != ""
  {
    var gap: string, text: string, rest: string :| LaidFirst(command, gap, text, rest, tokens);
    assert text != "";
  }
}
