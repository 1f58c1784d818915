/** The decision on a file-change request: every path and every move target is
    contained, in scope and not forbidden, as written and as resolved. */
module FileChanges {
  import opened OperationStore
  import opened PathScope
  import Glob

  datatype ChangeKind = Add | Delete | Update | OtherChange

  /** `path`, `move`: None inside Some is a path whose syntax is refused. */
  datatype Change = Change(complete: bool, kind: ChangeKind, path: Option<Named>, move: Option<Option<Named>>)

  /** `widens`: asks for a directory or session grant, extra permissions or a
      remote environment.  `correlated`: belongs to the file-change item in
      progress in the same turn. */
  datatype FileRequest = FileRequest(widens: bool, correlated: bool, changes: seq<Change>)

  datatype Scope = Scope(root: Path, allowed: seq<string>, forbidden: seq<string>, classes: Glob.Classes, links: nat)

  function JoinFrom(parts: seq<string>, i: nat): string
    requires i < |parts|
    decreases |parts| - i
  {
    if i == |parts| - 1 then parts[i] else parts[i] + "/" + JoinFrom(parts, i + 1)
  }

  function Join(parts: seq<string>): string { if parts == [] then "." else JoinFrom(parts, 0) }

  predicate InScope(rel: string, scope: Scope) {
    && !Glob.PathMatches(rel, scope.forbidden + Glob.GIT, scope.classes)
    && Glob.PathMatches(rel, scope.allowed, scope.classes)
  }

  function Resolved(fs: Tree, scope: Scope, name: Named): State {
    Target(fs, scope.root, scope.root, name.absolute, name.parts, scope.links)
  }

  /** A regular or new file in scope, under both of its names. */
  predicate EditOk(fs: Tree, scope: Scope, path: Option<Named>) {
    path.Some? &&
    var s := Resolved(fs, scope, path.value);
    s.State? && scope.root <= s.current
    && (s.current in fs ==> fs[s.current] == File)
    && InScope(Join(s.lexical), scope) && InScope(Join(s.current[|scope.root|..]), scope)
  }

  predicate ChangeOk(fs: Tree, scope: Scope, c: Change) {
    c.complete && c.kind != OtherChange && EditOk(fs, scope, c.path) && (c.move.Some? ==> EditOk(fs, scope, c.move.value))
  }

  /** One named path, checked step by step. */
  method CheckEdit(fs: Tree, scope: Scope, path: Option<Named>) returns (ok: bool)
    requires TreeOk(fs) && IsDir(fs, scope.root)
    ensures ok == EditOk(fs, scope, path)
  {
    if path.None? { return false; }
    var name := path.value;
    var s := FindTarget(fs, scope.root, scope.root, name.absolute, name.parts, scope.links);
    if s.Rejected? { return false; }
    TargetIsContained(fs, scope.root, scope.root, name.absolute, name.parts, scope.links, 0);
    if s.current in fs && fs[s.current] != File { return false; }
    var names := [Join(s.lexical), Join(s.current[|scope.root|..])];
    var forbidden := scope.forbidden + Glob.GIT;
    if Glob.PathMatches(names[0], forbidden, scope.classes) || Glob.PathMatches(names[1], forbidden, scope.classes) {
      return false;
    }
    return Glob.PathMatches(names[0], scope.allowed, scope.classes) && Glob.PathMatches(names[1], scope.allowed, scope.classes);
  }

  /** Allowed exactly when nothing is widened, the request belongs to its item,
      and each of at least one change passes. */
  method Decide(fs: Tree, scope: Scope, request: FileRequest) returns (allow: bool)
    requires TreeOk(fs) && IsDir(fs, scope.root)
    ensures allow <==> !request.widens && request.correlated && request.changes != []
                       && forall c | c in request.changes ::
                            c.complete && c.kind != OtherChange && EditOk(fs, scope, c.path)
                            && (c.move.Some? ==> EditOk(fs, scope, c.move.value))
  {
    hide EditOk;
    if request.widens || !request.correlated || request.changes == [] { return false; }
    for i := 0 to |request.changes|
      invariant forall c | c in request.changes[..i] :: ChangeOk(fs, scope, c)
    {
      var c := request.changes[i];
      assert c in request.changes;
      if !c.complete || c.kind == OtherChange { return false; }
      var ok := CheckEdit(fs, scope, c.path);
      if !ok { return false; }
      if c.move.Some? {
        ok := CheckEdit(fs, scope, c.move.value);
        if !ok { return false; }
      }
      assert request.changes[..i + 1] == request.changes[..i] + [c];
    }
    assert request.changes[..|request.changes|] == request.changes;
    return true;
  }

  // ------------------------------------------------------------ consequences

  /** What an authorised path is: a confirmed place under the worker's root,
      and, if the system can resolve it, exactly what the system opens. */
  lemma AllowedIsContained(fs: Tree, scope: Scope, name: Named)
    requires TreeOk(fs) && IsDir(fs, scope.root) && EditOk(fs, scope, Some(name))
    ensures PathScope.Confirmed(fs, scope.root, Resolved(fs, scope, name))
    ensures Below(scope.root, scope.root, name.absolute, name.parts).Some?
    ensures var place := Walk(fs, scope.root, Below(scope.root, scope.root, name.absolute, name.parts).value, scope.links);
            place.Some? ==> place.value == Resolved(fs, scope, name).current && place.value in fs && fs[place.value] == File
  {
    var rest := Below(scope.root, scope.root, name.absolute, name.parts).value;
    hide InScope;
    TargetIsContained(fs, scope.root, scope.root, name.absolute, name.parts, scope.links, 0);
    var place := Walk(fs, scope.root, rest, scope.links);
    if place.Some? {
      TargetIsWhatIsOpened(fs, scope.root, scope.root, name.absolute, name.parts, scope.links, place.value);
    }
  }

  lemma ForbiddenSubtree(rel: string, scope: Scope, dir: string)
    requires InScope(rel, scope) && dir in scope.forbidden && Glob.Literal(Glob.StripRight(Glob.Slashes(dir)))
    ensures var q, r := Glob.StripRight(Glob.Slashes(dir)), Glob.Slashes(rel);
            r != q && !(q + "/" <= r)
  {
    assert dir in scope.forbidden + Glob.GIT;
    Glob.LiteralCoversIff(rel, dir, scope.classes);
  }

  /** Components are joined by one slash each. */
  lemma {:induction false} JoinConcat(a: seq<string>, b: seq<string>)
    requires a != [] && b != []
    ensures Join(a + b) == Join(a) + "/" + Join(b)
  {
    JoinFromShifts(a, b, 0);
  }

  lemma {:induction false} JoinFromShifts(a: seq<string>, b: seq<string>, i: nat)
    requires i < |a| && b != []
    ensures JoinFrom(a + b, i) == JoinFrom(a, i) + "/" + JoinFrom(b, 0)
    decreases |a| - i
  {
    if i == |a| - 1 {
      JoinFromLater(a, b, 0);
    } else {
      JoinFromShifts(a, b, i + 1);
    }
  }

  lemma {:induction false} JoinFromLater(a: seq<string>, b: seq<string>, i: nat)
    requires i < |b|
    ensures JoinFrom(a + b, |a| + i) == JoinFrom(b, i)
    decreases |b| - i
  {
    assert (a + b)[|a| + i] == b[i];
    if i < |b| - 1 { JoinFromLater(a, b, i + 1); }
  }

  /** The path as it was asked, below the root and normalised by its text. */
  function Requested(scope: Scope, name: Named): Option<string> {
    match Below(scope.root, scope.root, name.absolute, name.parts)
    case None => None
    case Some(rest) => Some(Join(Normal(rest)))
  }

  /** An edit is authorised exactly when its target is accepted, is a regular
      file or a new one, and both the path as it was asked and the place it
      resolves to are allowed and not forbidden. */
  lemma EditOkIff(fs: Tree, scope: Scope, name: Named)
    requires TreeOk(fs) && IsDir(fs, scope.root)
    ensures var s := Resolved(fs, scope, name);
            EditOk(fs, scope, Some(name)) <==>
              && s.State? && scope.root <= s.current && (s.current in fs ==> fs[s.current].File?)
              && Requested(scope, name).Some?
              && forall rel | rel == Requested(scope, name).value || rel == Join(s.current[|scope.root|..]) ::
                   Glob.PathMatches(rel, scope.allowed, scope.classes) && !Glob.PathMatches(rel, scope.forbidden + Glob.GIT, scope.classes)
  {
    hide Glob.PathMatches, Join;
    if Resolved(fs, scope, name).State? {
      TargetIsNamed(fs, scope.root, scope.root, name.absolute, name.parts, scope.links);
    }
  }

  /** A request that names a path at or beneath a forbidden directory is refused,
      whatever its links resolve to. */
  lemma ForbiddenNameIsRefused(fs: Tree, scope: Scope, name: Named, dir: string)
    requires TreeOk(fs) && IsDir(fs, scope.root) && Requested(scope, name).Some?
    requires dir in scope.forbidden && Glob.Literal(Glob.StripRight(Glob.Slashes(dir)))
    requires var q, r := Glob.StripRight(Glob.Slashes(dir)), Glob.Slashes(Requested(scope, name).value); r == q || q + "/" <= r
    ensures !EditOk(fs, scope, Some(name))
  {
    if EditOk(fs, scope, Some(name)) {
      TargetIsNamed(fs, scope.root, scope.root, name.absolute, name.parts, scope.links);
      ForbiddenSubtree(Requested(scope, name).value, scope, dir);
    }
  }

  predicate GitAt(rel: string, i: nat) {
    i + 5 <= |rel| && rel[i..i + 5] == "/.git" && (i + 5 == |rel| || rel[i + 5] == '/')
  }

  predicate InGit(rel: string) {
    rel == ".git" || ".git/" <= rel || exists i: nat | i < |rel| :: GitAt(rel, i)
  }

  /** Under neither of its names does an authorised path touch a `.git`
      directory, at any depth, whatever the task's own patterns say. */
  lemma AllowedAvoidsGit(rel: string, scope: Scope)
    requires InScope(rel, scope)
    ensures !InGit(rel)
  {
    hide Glob.PathMatches;
    var forbidden := scope.forbidden + Glob.GIT;
    if ".git/" <= rel {
      assert rel == ".git/" + rel[5..];
      Glob.GitIsForbidden("", rel[5..], forbidden, scope.classes);
    } else if i: nat :| i < |rel| && GitAt(rel, i) {
      if i + 5 == |rel| {
        assert rel == rel[..i] + "/.git";
        Glob.GitIsForbidden(rel[..i], "", forbidden, scope.classes);
      } else {
        assert rel == rel[..i] + "/.git" + "/" + rel[i + 6..];
        Glob.GitIsForbidden(rel[..i], rel[i + 6..], forbidden, scope.classes);
      }
    } else {
      Glob.GitIsForbidden("", "", forbidden, scope.classes);
    }
  }
}
