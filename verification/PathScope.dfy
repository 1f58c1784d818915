/** Containment of a requested path in the worker's tree: links are followed
    before `..`, and nothing is authorised that cannot be confirmed. */
module PathScope {
  import opened OperationStore

  /** A path of the real tree: its components from the file-system root. */
  type Path = seq<string>

  /** A path a request names, after its syntax was accepted. */
  datatype Named = Named(absolute: bool, parts: seq<string>)

  /** What a link says, to be followed from its own directory unless absolute. */
  datatype Entry = File | Dir | Link(absolute: bool, dest: seq<string>)

  type Tree = map<Path, Entry>

  function Parent(p: Path): Path { if p == [] then [] else p[..|p| - 1] }

  predicate IsDir(fs: Tree, p: Path) { p in fs && fs[p] == Dir }

  predicate IsReal(fs: Tree, p: Path) { p in fs && !fs[p].Link? }

  // ------------------------------------------------ how the system walks paths

  /** The system's own resolution: every component must exist, `..` and names
      are taken in directories only, at most `links` links are followed. */
  function Walk(fs: Tree, at: Path, parts: seq<string>, links: nat): Option<Path>
    decreases links, |parts|
  {
    if parts == [] then Some(at)
    else if !IsDir(fs, at) then None
    else if parts[0] == ".." then Walk(fs, Parent(at), parts[1..], links)
    else
      var child := at + [parts[0]];
      if child !in fs then None
      else if fs[child].Link? then
        if links == 0 then None
        else Walk(fs, if fs[child].absolute then [] else at, fs[child].dest + parts[1..], links - 1)
      else Walk(fs, child, parts[1..], links)
  }

  // --------------------------------------------------------- the containment

  datatype Refusal = OutsideWorktree | UnresolvedTraversal | ParentNotDirectory | BrokenLink

  /** `missing`: the walk has left what exists. */
  datatype State = State(current: Path, lexical: seq<string>, missing: bool) | Rejected(why: Refusal)

  function Pop<T>(s: seq<T>): seq<T> { if s == [] then [] else s[..|s| - 1] }

  /** One component. */
  function Step(fs: Tree, root: Path, s: State, part: string, links: nat): State
    requires s.State?
  {
    if part == ".." then
      if !(root <= Parent(s.current)) then Rejected(OutsideWorktree)
      else if s.missing then Rejected(UnresolvedTraversal)
      else State(Parent(s.current), Pop(s.lexical), false)
    else
      var child, lexical := s.current + [part], s.lexical + [part];
      if s.missing then State(child, lexical, true)
      else if !IsDir(fs, s.current) then Rejected(ParentNotDirectory)
      else if child !in fs then State(child, lexical, true)
      else
        match Walk(fs, s.current, [part], links)
        case None => Rejected(BrokenLink)
        case Some(place) => if root <= place then State(place, lexical, false) else Rejected(OutsideWorktree)
  }

  function Steps(fs: Tree, root: Path, s: State, parts: seq<string>, links: nat): State
    decreases |parts|
  {
    if parts == [] || s.Rejected? then s
    else Steps(fs, root, Step(fs, root, s, parts[0], links), parts[1..], links)
  }

  /** Components below the root of a requested path, absolute or relative to
      `cwd`; No when the path does not lexically start at the root. */
  function Below(root: Path, cwd: Path, absolute: bool, parts: seq<string>): Option<seq<string>> {
    var whole := if absolute then parts else cwd + parts;
    if root <= whole then Some(whole[|root|..]) else None
  }

  function Target(fs: Tree, root: Path, cwd: Path, absolute: bool, parts: seq<string>, links: nat): State {
    match Below(root, cwd, absolute, parts)
    case None => Rejected(OutsideWorktree)
    case Some(rest) => Steps(fs, root, State(root, [], false), rest, links)
  }

  /** The loop as it runs. */
  method FindTarget(fs: Tree, root: Path, cwd: Path, absolute: bool, parts: seq<string>, links: nat) returns (r: State)
    ensures r == Target(fs, root, cwd, absolute, parts, links)
  {
    var below := Below(root, cwd, absolute, parts);
    if below.None? { return Rejected(OutsideWorktree); }
    var rest := below.value;
    var current: Path, lexical: seq<string>, missing := root, [], false;
    var i := 0;
    while i < |rest|
      invariant i <= |rest|
      invariant Target(fs, root, cwd, absolute, parts, links)
                == Steps(fs, root, State(current, lexical, missing), rest[i..], links)
    {
      var part := rest[i];
      assert rest[i..][1..] == rest[i + 1..];
      if part == ".." {
        current, lexical := Parent(current), Pop(lexical);
        if !(root <= current) { return Rejected(OutsideWorktree); }
        if missing { return Rejected(UnresolvedTraversal); }
      } else {
        lexical := lexical + [part];
        if !missing && !IsDir(fs, current) { return Rejected(ParentNotDirectory); }
        var parent := current;
        current := current + [part];
        if !missing {
          if current !in fs {
            missing := true;
          } else {
            var place := Walk(fs, parent, [part], links);
            if place.None? { return Rejected(BrokenLink); }
            current := place.value;
            if !(root <= current) { return Rejected(OutsideWorktree); }
          }
        }
      }
      i := i + 1;
    }
    return State(current, lexical, missing);
  }

  // -------------------------------------------------------------- composition

  lemma {:induction false} StepsSplit(fs: Tree, root: Path, s: State, a: seq<string>, b: seq<string>, links: nat)
    ensures Steps(fs, root, s, a + b, links) == Steps(fs, root, Steps(fs, root, s, a, links), b, links)
    decreases |a|
  {
    if a == [] {
      assert a + b == b;
    } else if s.State? {
      assert (a + b)[0] == a[0] && (a + b)[1..] == a[1..] + b;
      StepsSplit(fs, root, Step(fs, root, s, a[0], links), a[1..], b, links);
    }
  }

  /** A larger link allowance resolves the same path. */
  lemma {:induction false} WalkMore(fs: Tree, at: Path, parts: seq<string>, links: nat, more: nat)
    requires Walk(fs, at, parts, links).Some? && links <= more
    ensures Walk(fs, at, parts, more) == Walk(fs, at, parts, links)
    decreases links, |parts|
  {
    if parts != [] {
      var child := at + [parts[0]];
      if parts[0] == ".." { WalkMore(fs, Parent(at), parts[1..], links, more); }
      else if fs[child].Link? {
        WalkMore(fs, if fs[child].absolute then [] else at, fs[child].dest + parts[1..], links - 1, more - 1);
      } else { WalkMore(fs, child, parts[1..], links, more); }
    }
  }

  /** A resolved path resolves in two legs. */
  lemma {:induction false} WalkSplit(fs: Tree, at: Path, a: seq<string>, b: seq<string>, links: nat)
    requires Walk(fs, at, a + b, links).Some?
    ensures Walk(fs, at, a, links).Some?
    ensures Walk(fs, Walk(fs, at, a, links).value, b, links) == Walk(fs, at, a + b, links)
    decreases links, |a|
  {
    if a == [] {
      assert a + b == b;
    } else {
      assert (a + b)[0] == a[0] && (a + b)[1..] == a[1..] + b;
      var child := at + [a[0]];
      if a[0] == ".." { WalkSplit(fs, Parent(at), a[1..], b, links); }
      else if fs[child].Link? {
        var from := if fs[child].absolute then [] else at;
        assert fs[child].dest + (a[1..] + b) == (fs[child].dest + a[1..]) + b;
        WalkSplit(fs, from, fs[child].dest + a[1..], b, links - 1);
        var mid := Walk(fs, from, fs[child].dest + a[1..], links - 1).value;
        WalkMore(fs, mid, b, links - 1, links);
      } else { WalkSplit(fs, child, a[1..], b, links); }
    }
  }

  /** Two legs that resolve join, given links enough for both. */
  lemma {:induction false} WalkJoin(fs: Tree, at: Path, a: seq<string>, b: seq<string>, la: nat, lb: nat)
    requires Walk(fs, at, a, la).Some? && Walk(fs, Walk(fs, at, a, la).value, b, lb).Some?
    ensures Walk(fs, at, a + b, la + lb) == Walk(fs, Walk(fs, at, a, la).value, b, lb)
    decreases la, |a|
  {
    if a == [] {
      assert a + b == b;
      WalkMore(fs, at, b, lb, la + lb);
    } else {
      assert (a + b)[0] == a[0] && (a + b)[1..] == a[1..] + b;
      var child := at + [a[0]];
      if a[0] == ".." { WalkJoin(fs, Parent(at), a[1..], b, la, lb); }
      else if fs[child].Link? {
        assert fs[child].dest + (a[1..] + b) == (fs[child].dest + a[1..]) + b;
        WalkJoin(fs, if fs[child].absolute then [] else at, fs[child].dest + a[1..], b, la - 1, lb);
      } else { WalkJoin(fs, child, a[1..], b, la, lb); }
    }
  }

  // ----------------------------------------------------------- main theorems

  /** Everything before the first missing component is a real place under the
      root; missing parts hang below a confirmed directory and exist nowhere. */
  ghost predicate Confirmed(fs: Tree, root: Path, s: State) {
    && s.State? && root <= s.current
    && (!s.missing ==> IsReal(fs, s.current))
    && (s.missing ==> exists k :: |root| <= k < |s.current| && IsDir(fs, s.current[..k]) && s.current[..k + 1] !in fs)
    && ".." !in s.lexical
  }

  /** Directories hold what they hold: the parent of anything is a directory. */
  predicate TreeOk(fs: Tree) {
    IsDir(fs, []) && forall p {:trigger Parent(p)} | p in fs :: IsDir(fs, Parent(p))
  }

  lemma {:induction false} WalkIsReal(fs: Tree, at: Path, parts: seq<string>, links: nat)
    requires TreeOk(fs) && IsReal(fs, at) && Walk(fs, at, parts, links).Some?
    ensures IsReal(fs, Walk(fs, at, parts, links).value)
    decreases links, |parts|
  {
    if parts != [] {
      var child := at + [parts[0]];
      if parts[0] == ".." { WalkIsReal(fs, Parent(at), parts[1..], links); }
      else if fs[child].Link? {
        WalkIsReal(fs, if fs[child].absolute then [] else at, fs[child].dest + parts[1..], links - 1);
      } else { WalkIsReal(fs, child, parts[1..], links); }
    }
  }

  lemma StepConfirmed(fs: Tree, root: Path, s: State, part: string, links: nat)
    requires TreeOk(fs) && Confirmed(fs, root, s) && Step(fs, root, s, part, links).State?
    ensures Confirmed(fs, root, Step(fs, root, s, part, links))
  {
    var v, child := Step(fs, root, s, part, links), s.current + [part];
    hide Walk;
    if part == ".." {
    } else if s.missing {
      var k :| |root| <= k < |s.current| && IsDir(fs, s.current[..k]) && s.current[..k + 1] !in fs;
      assert child[..k] == s.current[..k] && child[..k + 1] == s.current[..k + 1];
    } else if child !in fs {
      assert child[..|s.current|] == s.current && child[..|s.current| + 1] == child;
    } else {
      WalkIsReal(fs, s.current, [part], links);
    }
  }

  lemma {:induction false} StepsConfirmed(fs: Tree, root: Path, s: State, parts: seq<string>, links: nat)
    requires TreeOk(fs) && Confirmed(fs, root, s) && Steps(fs, root, s, parts, links).State?
    ensures Confirmed(fs, root, Steps(fs, root, s, parts, links))
    decreases |parts|
  {
    hide Walk, Confirmed, Step;
    if parts != [] {
      var v := Step(fs, root, s, parts[0], links);
      if v.State? { StepConfirmed(fs, root, s, parts[0], links); }
      StepsConfirmed(fs, root, v, parts[1..], links);
    }
  }

  /** An accepted path, and every prefix of it, resolves to a confirmed place
      under the root. */
  lemma TargetIsContained(fs: Tree, root: Path, cwd: Path, absolute: bool, parts: seq<string>, links: nat, k: nat)
    requires TreeOk(fs) && IsDir(fs, root) && Target(fs, root, cwd, absolute, parts, links).State?
    requires k <= |Below(root, cwd, absolute, parts).value|
    ensures Confirmed(fs, root, Target(fs, root, cwd, absolute, parts, links))
    ensures Confirmed(fs, root, Steps(fs, root, State(root, [], false), Below(root, cwd, absolute, parts).value[..k], links))
  {
    var rest, start := Below(root, cwd, absolute, parts).value, State(root, [], false);
    hide Walk, Step;
    assert rest == rest[..k] + rest[k..];
    StepsSplit(fs, root, start, rest[..k], rest[k..], links);
    StepsConfirmed(fs, root, start, rest, links);
    StepsConfirmed(fs, root, start, rest[..k], links);
  }

  lemma WalksAgree(fs: Tree, at: Path, parts: seq<string>, a: nat, b: nat)
    requires Walk(fs, at, parts, a).Some? && Walk(fs, at, parts, b).Some?
    ensures Walk(fs, at, parts, a) == Walk(fs, at, parts, b)
  {
    WalkMore(fs, at, parts, a, a + b);
    WalkMore(fs, at, parts, b, a + b);
  }

  lemma StepAgrees(fs: Tree, root: Path, s: State, part: string, links: nat, budget: nat)
    requires s.State? && !s.missing && Step(fs, root, s, part, links).State?
    requires Walk(fs, s.current, [part], budget).Some?
    ensures var v := Step(fs, root, s, part, links);
            !v.missing && v.current == Walk(fs, s.current, [part], budget).value
  {
    assert [part][1..] == [];
    if Walk(fs, s.current, [part], links).Some? { WalksAgree(fs, s.current, [part], links, budget); }
  }

  lemma {:induction false} StepsAgree(fs: Tree, root: Path, s: State, parts: seq<string>, links: nat, budget: nat)
    requires s.State? && !s.missing && Steps(fs, root, s, parts, links).State?
    requires Walk(fs, s.current, parts, budget).Some?
    ensures var v := Steps(fs, root, s, parts, links);
            !v.missing && v.current == Walk(fs, s.current, parts, budget).value
    decreases |parts|
  {
    if parts != [] {
      var part := parts[0];
      assert parts == [part] + parts[1..];
      WalkSplit(fs, s.current, [part], parts[1..], budget);
      hide Walk, Step;
      StepAgrees(fs, root, s, part, links, budget);
      StepsAgree(fs, root, Step(fs, root, s, part, links), parts[1..], links, budget);
    }
  }

  /** Where the system resolves the request, the accepted target is that place,
      nothing is missing, and it lies under the root. */
  lemma TargetIsWhatIsOpened(fs: Tree, root: Path, cwd: Path, absolute: bool, parts: seq<string>, links: nat,
                             place: Path)
    requires TreeOk(fs) && IsDir(fs, root) && Target(fs, root, cwd, absolute, parts, links).State?
    requires Walk(fs, root, Below(root, cwd, absolute, parts).value, links) == Some(place)
    ensures Target(fs, root, cwd, absolute, parts, links).current == place
    ensures !Target(fs, root, cwd, absolute, parts, links).missing && root <= place
  {
    var rest := Below(root, cwd, absolute, parts).value;
    StepsAgree(fs, root, State(root, [], false), rest, links, links);
    StepsConfirmed(fs, root, State(root, [], false), rest, links);
  }

  // --------------------------------------------------- the name as it was asked

  /** The requested components by their text alone, read from the end: a `..`
      takes away the nearest name before it that nothing else has taken. */
  function Normal(parts: seq<string>, taken: nat := 0): seq<string>
    decreases |parts|
  {
    if parts == [] then [] else
    var before, last := parts[..|parts| - 1], parts[|parts| - 1];
    if last == ".." then Normal(before, taken + 1)
    else if taken > 0 then Normal(before, taken - 1)
    else Normal(before, 0) + [last]
  }

  lemma {:induction false} TakenPops(parts: seq<string>, taken: nat)
    ensures Normal(parts, taken + 1) == Pop(Normal(parts, taken))
    decreases |parts|
  {
    if parts != [] {
      var before, last := parts[..|parts| - 1], parts[|parts| - 1];
      if last == ".." { TakenPops(before, taken + 1); }
      else if taken > 0 { TakenPops(before, taken - 1); }
    }
  }

  lemma {:induction false} LexicalIsNormal(fs: Tree, root: Path, parts: seq<string>, links: nat)
    requires Steps(fs, root, State(root, [], false), parts, links).State?
    ensures Steps(fs, root, State(root, [], false), parts, links).lexical == Normal(parts)
    decreases |parts|
  {
    if parts != [] {
      var start, before, last := State(root, [], false), parts[..|parts| - 1], parts[|parts| - 1];
      assert parts == before + [last];
      hide Step, Walk;
      StepsSplit(fs, root, start, before, [last], links);
      var mid := Steps(fs, root, start, before, links);
      assert Steps(fs, root, mid, [last], links) == Step(fs, root, mid, last, links) by { assert [last][1..] == []; }
      LexicalIsNormal(fs, root, before, links);
      StepNames(fs, root, mid, last, links);
      TakenPops(before, 0);
    }
  }

  lemma StepNames(fs: Tree, root: Path, s: State, part: string, links: nat)
    requires s.State? && Step(fs, root, s, part, links).State?
    ensures Step(fs, root, s, part, links).lexical == if part == ".." then Pop(s.lexical) else s.lexical + [part]
  {
    hide Walk;
  }

  /** The lexical name of an accepted target is the requested path normalised
      by its text alone, whatever links were followed on the way. */
  lemma TargetIsNamed(fs: Tree, root: Path, cwd: Path, absolute: bool, parts: seq<string>, links: nat)
    requires Target(fs, root, cwd, absolute, parts, links).State?
    ensures Below(root, cwd, absolute, parts).Some?
    ensures Target(fs, root, cwd, absolute, parts, links).lexical == Normal(Below(root, cwd, absolute, parts).value)
  {
    LexicalIsNormal(fs, root, Below(root, cwd, absolute, parts).value, links);
  }

  // ------------------------------------------------------ nothing else is refused

  lemma StepResolves(fs: Tree, root: Path, s: State, part: string, links: nat)
    requires s.State? && !s.missing && Walk(fs, s.current, [part], links).Some? && root <= Walk(fs, s.current, [part], links).value
    ensures var v := Step(fs, root, s, part, links);
            v.State? && !v.missing && v.current == Walk(fs, s.current, [part], links).value
  {
    assert [part][1..] == [];
  }

  /** Wherever the system's walk leads, it stays under the root. */
  ghost predicate StaysBelow(fs: Tree, root: Path, at: Path, parts: seq<string>, links: nat) {
    forall k | 0 <= k <= |parts| && Walk(fs, at, parts[..k], links).Some? :: root <= Walk(fs, at, parts[..k], links).value
  }

  lemma StaysBelowLater(fs: Tree, root: Path, at: Path, parts: seq<string>, links: nat)
    requires parts != [] && Walk(fs, at, parts, links).Some? && StaysBelow(fs, root, at, parts, links)
    ensures Walk(fs, at, [parts[0]], links).Some? && root <= Walk(fs, at, [parts[0]], links).value
    ensures StaysBelow(fs, root, Walk(fs, at, [parts[0]], links).value, parts[1..], links)
    ensures Walk(fs, Walk(fs, at, [parts[0]], links).value, parts[1..], links).Some?
  {
    var rest := parts[1..];
    hide Walk;
    assert parts == [parts[0]] + rest;
    WalkSplit(fs, at, [parts[0]], rest, links);
    var next := Walk(fs, at, [parts[0]], links).value;
    assert parts[..1] == [parts[0]];
    forall k | 0 <= k <= |rest| && Walk(fs, next, rest[..k], links).Some? ensures root <= Walk(fs, next, rest[..k], links).value {
      assert parts == parts[..k + 1] + parts[k + 1..] && parts[..k + 1] == [parts[0]] + rest[..k];
      WalkSplit(fs, at, parts[..k + 1], parts[k + 1..], links);
      WalkSplit(fs, at, [parts[0]], rest[..k], links);
    }
  }

  /** A path the system resolves without leaving the root is accepted, and as
      the place the system resolves it to. */
  lemma {:induction false} ResolvableIsAccepted(fs: Tree, root: Path, s: State, parts: seq<string>, links: nat)
    requires s.State? && !s.missing && Walk(fs, s.current, parts, links).Some? && StaysBelow(fs, root, s.current, parts, links)
    ensures var v := Steps(fs, root, s, parts, links);
            v.State? && !v.missing && v.current == Walk(fs, s.current, parts, links).value
    decreases |parts|
  {
    if parts != [] {
      StaysBelowLater(fs, root, s.current, parts, links);
      WalkSplit(fs, s.current, [parts[0]], parts[1..], links);
      assert parts == [parts[0]] + parts[1..];
      hide Walk, Step, StaysBelow;
      StepResolves(fs, root, s, parts[0], links);
      ResolvableIsAccepted(fs, root, Step(fs, root, s, parts[0], links), parts[1..], links);
    }
  }

  /** Component `k` is the first that exists nowhere: a name in a confirmed
      directory, with only names after it. */
  ghost predicate BreaksOffAt(fs: Tree, root: Path, s: State, parts: seq<string>, links: nat, k: nat) {
    && k < |parts| && ".." !in parts[k..]
    && var d := Steps(fs, root, s, parts[..k], links);
       d.State? && !d.missing && IsDir(fs, d.current) && d.current + [parts[k]] !in fs
  }

  lemma {:induction false} NamesHangOn(fs: Tree, root: Path, s: State, parts: seq<string>, links: nat)
    requires s.State? && s.missing
    ensures var v := Steps(fs, root, s, parts, links);
            (v.State? <==> ".." !in parts) && (v.State? ==> v.missing && v.current == s.current + parts)
    decreases |parts|
  {
    if parts != [] {
      assert parts == [parts[0]] + parts[1..];
      NamesHangOnStep(fs, root, s, parts[0], links);
      var v := Step(fs, root, s, parts[0], links);
      hide Step;
      if v.State? {
        NamesHangOn(fs, root, v, parts[1..], links);
        assert s.current + [parts[0]] + parts[1..] == s.current + parts;
      }
    } else {
      assert s.current + parts == s.current;
    }
  }

  lemma NamesHangOnStep(fs: Tree, root: Path, s: State, part: string, links: nat)
    requires s.State? && s.missing
    ensures var v := Step(fs, root, s, part, links);
            (v.State? <==> part != "..") && (v.State? ==> v.missing && v.current == s.current + [part])
  {
  }

  lemma BreaksOffLater(fs: Tree, root: Path, s: State, parts: seq<string>, links: nat, k: nat)
    requires s.State? && parts != [] && BreaksOffAt(fs, root, Step(fs, root, s, parts[0], links), parts[1..], links, k)
    ensures BreaksOffAt(fs, root, s, parts, links, k + 1)
    ensures Steps(fs, root, s, parts[..k + 1], links) == Steps(fs, root, Step(fs, root, s, parts[0], links), parts[1..][..k], links)
  {
    hide Step;
    assert parts[..k + 1][1..] == parts[1..][..k] && parts[..k + 1][0] == parts[0] && parts[k + 1..] == parts[1..][k..];
  }

  /** A path that ends where nothing exists yet is accepted exactly when it
      breaks off at a name in a confirmed directory and goes on with names
      only; the target is those names below that directory. */
  lemma {:induction false} NewFileIff(fs: Tree, root: Path, s: State, parts: seq<string>, links: nat)
    requires s.State? && !s.missing
    ensures var v := Steps(fs, root, s, parts, links);
            && (v.State? && v.missing <==> exists k: nat :: BreaksOffAt(fs, root, s, parts, links, k))
            && forall k: nat | BreaksOffAt(fs, root, s, parts, links, k) ::
                 v.State? && v.current == Steps(fs, root, s, parts[..k], links).current + parts[k..]
    decreases |parts|
  {
    if parts == [] { return; }
    var v, rest := Step(fs, root, s, parts[0], links), parts[1..];
    var all := Steps(fs, root, s, parts, links);
    assert parts[..0] == [] && parts[0..] == parts && Steps(fs, root, s, parts[..0], links) == s;
    StepBreaksOff(fs, root, s, parts[0], links);
    hide Step, Walk;
    if v.State? && v.missing {
      NamesHangOn(fs, root, v, rest, links);
      assert parts == [parts[0]] + rest && s.current + [parts[0]] + rest == s.current + parts;
      if all.State? { assert BreaksOffAt(fs, root, s, parts, links, 0); }
    } else if v.State? {
      NewFileIff(fs, root, v, rest, links);
      if k: nat :| BreaksOffAt(fs, root, v, rest, links, k) { BreaksOffLater(fs, root, s, parts, links, k); }
    }
    forall k: nat | BreaksOffAt(fs, root, s, parts, links, k)
      ensures all.State? && all.missing && all.current == Steps(fs, root, s, parts[..k], links).current + parts[k..]
    {
      if k > 0 { BreaksOffEarlier(fs, root, s, parts, links, k); }
    }
  }

  lemma BreaksOffEarlier(fs: Tree, root: Path, s: State, parts: seq<string>, links: nat, k: nat)
    requires s.State? && !s.missing && parts != [] && k > 0 && BreaksOffAt(fs, root, s, parts, links, k)
    ensures var v := Step(fs, root, s, parts[0], links);
            && v.State? && !v.missing && BreaksOffAt(fs, root, v, parts[1..], links, k - 1)
            && Steps(fs, root, s, parts[..k], links) == Steps(fs, root, v, parts[1..][..k - 1], links)
            && parts[k..] == parts[1..][k - 1..]
  {
    var v, rest := Step(fs, root, s, parts[0], links), parts[1..];
    hide Step;
    assert parts[..k][1..] == rest[..k - 1] && parts[..k][0] == parts[0] && parts[k..] == rest[k - 1..] && parts[k] == rest[k - 1];
    assert Steps(fs, root, s, parts[..k], links) == Steps(fs, root, v, rest[..k - 1], links);
    assert v.State?;
    if v.missing { MissingStays(fs, root, v, rest[..k - 1], links); }
  }

  lemma StepBreaksOff(fs: Tree, root: Path, s: State, part: string, links: nat)
    requires s.State? && !s.missing
    ensures var v := Step(fs, root, s, part, links);
            && (v.State? && v.missing <==> part != ".." && IsDir(fs, s.current) && s.current + [part] !in fs)
            && (v.State? && v.missing ==> v.current == s.current + [part])
  {
    hide Walk;
  }

  /** A `..` taken at something that is not a directory. */
  ghost predicate LeavesAFile(fs: Tree, root: Path, s: State, parts: seq<string>, links: nat) {
    exists k :: 0 <= k < |parts| && parts[k] == ".."
                && Steps(fs, root, s, parts[..k], links).State?
                && !IsDir(fs, Steps(fs, root, s, parts[..k], links).current)
  }

  lemma LeavesLater(fs: Tree, root: Path, s: State, parts: seq<string>, links: nat)
    requires s.State? && parts != [] && LeavesAFile(fs, root, Step(fs, root, s, parts[0], links), parts[1..], links)
    ensures LeavesAFile(fs, root, s, parts, links)
  {
    var v, rest := Step(fs, root, s, parts[0], links), parts[1..];
    var k :| 0 <= k < |rest| && rest[k] == ".." && Steps(fs, root, v, rest[..k], links).State?
             && !IsDir(fs, Steps(fs, root, v, rest[..k], links).current);
    assert parts[..k + 1][1..] == rest[..k] && parts[..k + 1][0] == parts[0] && parts[k + 1] == rest[k];
  }

  lemma {:induction false} AcceptedIsResolvable(fs: Tree, root: Path, s: State, parts: seq<string>,
                                                links: nat) returns (budget: nat)
    requires s.State? && !s.missing && !LeavesAFile(fs, root, s, parts, links)
    requires Steps(fs, root, s, parts, links).State? && !Steps(fs, root, s, parts, links).missing
    ensures Walk(fs, s.current, parts, budget) == Some(Steps(fs, root, s, parts, links).current)
    decreases |parts|
  {
    if parts == [] {
      budget := 0;
    } else {
      var v := Step(fs, root, s, parts[0], links);
      if LeavesAFile(fs, root, v, parts[1..], links) { LeavesLater(fs, root, s, parts, links); }
      if v.State? && v.missing { MissingStays(fs, root, v, parts[1..], links); }
      if parts[0] == ".." {
        assert parts[..0] == [] && Steps(fs, root, s, parts[..0], links) == s;
      }
      var rest := AcceptedIsResolvable(fs, root, v, parts[1..], links);
      assert parts == [parts[0]] + parts[1..];
      assert Walk(fs, s.current, [parts[0]], links) == Some(v.current) by {
        assert [parts[0]][1..] == [];
      }
      WalkJoin(fs, s.current, [parts[0]], parts[1..], links, rest);
      budget := links + rest;
    }
  }

  lemma {:induction false} MissingStays(fs: Tree, root: Path, s: State, parts: seq<string>, links: nat)
    requires s.State? && s.missing && Steps(fs, root, s, parts, links).State?
    ensures Steps(fs, root, s, parts, links).missing
    decreases |parts|
  {
    if parts != [] { MissingStays(fs, root, Step(fs, root, s, parts[0], links), parts[1..], links); }
  }

  lemma {:induction false} NeverLeaves(fs: Tree, root: Path, s: State, parts: seq<string>, links: nat, budget: nat)
    requires s.State? && !s.missing
    requires Steps(fs, root, s, parts, links).State? && Walk(fs, s.current, parts, budget).Some?
    ensures !LeavesAFile(fs, root, s, parts, links)
  {
    if LeavesAFile(fs, root, s, parts, links) {
      var k :| 0 <= k < |parts| && parts[k] == ".." && Steps(fs, root, s, parts[..k], links).State?
               && !IsDir(fs, Steps(fs, root, s, parts[..k], links).current);
      assert parts == parts[..k] + parts[k..] && parts[k..][0] == "..";
      WalkSplit(fs, s.current, parts[..k], parts[k..], budget);
      StepsAgree(fs, root, s, parts[..k], links, budget);
    }
  }

  /** Exactly when an accepted, existing target is one the system itself can
      resolve: no `..` was taken at a file.  (`notes.txt/..` is accepted as the
      directory of `notes.txt`; the system refuses it.) */
  lemma ResolvableIff(fs: Tree, root: Path, rest: seq<string>, links: nat)
    requires Steps(fs, root, State(root, [], false), rest, links).State?
    requires !Steps(fs, root, State(root, [], false), rest, links).missing
    ensures (exists budget: nat :: Walk(fs, root, rest, budget).Some?) <==> !LeavesAFile(fs, root, State(root, [], false), rest, links)
  {
    var start := State(root, [], false);
    if !LeavesAFile(fs, root, start, rest, links) {
      var budget := AcceptedIsResolvable(fs, root, start, rest, links);
    }
    if budget: nat :| Walk(fs, root, rest, budget).Some? {
      NeverLeaves(fs, root, start, rest, links, budget);
    }
  }

  /** For one, the parent of a file. */
  lemma ParentOfAFileIsAccepted() returns (fs: Tree, root: Path, rest: seq<string>)
    ensures Steps(fs, root, State(root, [], false), rest, 0) == State(root, [], false)
    ensures forall budget: nat :: Walk(fs, root, rest, budget).None?
  {
    root, rest := ["r"], ["f", ".."];
    var f: Path := ["r", "f"];
    fs := map[root := Dir, f := File];
    var start, at := State(root, [], false), State(f, ["f"], false);
    assert root + ["f"] == f && root <= f && [] + ["f"] == ["f"];
    assert rest[1..] == [".."] && [".."][1..] == [] && Parent(f) == root;
    assert Walk(fs, root, ["f"], 0) == Some(f) by { assert ["f"][1..] == []; }
    assert Step(fs, root, start, "f", 0) == at;
    assert Steps(fs, root, start, rest, 0) == Steps(fs, root, at, [".."], 0);
    forall budget: nat ensures Walk(fs, root, rest, budget).None? {
      assert Walk(fs, root, rest, budget) == Walk(fs, f, [".."], budget);
    }
  }
}
