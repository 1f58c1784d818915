/** Configuration objects and their flat form, one value per dotted path. */
module ConfigTree {
  import opened OperationStore

  datatype Value = Number(n: int) | Flag(b: bool) | Text(s: string) | Names(names: seq<string>)

  datatype Node = Leaf(value: Value) | Section(entries: seq<Entry>)

  datatype Entry = Entry(key: string, node: Node)

  type Tree = seq<Entry>

  /** The components of a dotted path. */
  type Path = seq<string>

  type Flat = map<Path, Value>

  function Under(key: string, m: Flat): Flat { map p | p in Lift(key, m.Keys) :: m[p[1..]] }

  function Lift(key: string, paths: set<Path>): (r: set<Path>)
    ensures forall p :: p in r <==> p != [] && p[0] == key && p[1..] in paths
  {
    LiftMembers(key, paths);
    set p | p in paths :: [key] + p
  }

  lemma LiftMembers(key: string, paths: set<Path>)
    ensures forall p :: p in (set q | q in paths :: [key] + q) <==> p != [] && p[0] == key && p[1..] in paths
  {
    forall p: Path | p != [] && p[0] == key && p[1..] in paths ensures p in (set q | q in paths :: [key] + q) {
      assert p == [key] + p[1..];
    }
  }

  function Own(e: Entry): Flat
    decreases e
  {
    match e.node
    case Leaf(v) => map[[e.key] := v]
    case Section(entries) => Under(e.key, Flatten(entries))
  }

  function Flatten(t: Tree): Flat
    decreases t
  {
    if t == [] then map[] else Own(t[0]) + Flatten(t[1..])
  }

  /** The tree with `v` at `path`, made where it is missing. */
  function Insert(t: Tree, path: Path, v: Value): Tree
    requires path != []
    decreases |path|, |t|
  {
    if t == [] then [Entry(path[0], if |path| == 1 then Leaf(v) else Section(Insert([], path[1..], v)))]
    else if t[0].key != path[0] then [t[0]] + Insert(t[1..], path, v)
    else if |path| == 1 then [Entry(path[0], Leaf(v))] + t[1..]
    else [Entry(path[0], Section(Insert(if t[0].node.Section? then t[0].node.entries else [], path[1..], v)))] + t[1..]
  }

  /** All values, in the given order, as one object. */
  function Nest(order: seq<Path>, m: Flat): Tree
    requires forall p | p in order :: p in m && p != []
    decreases |order|
  {
    if order == [] then [] else
    var last := order[|order| - 1];
    Insert(Nest(order[..|order| - 1], m), last, m[last])
  }

  /** Neither path is an object on the way to the other. */
  predicate Apart(p: Path, q: Path) { !(p <= q) && !(q <= p) }

  predicate PrefixFree(order: seq<Path>) {
    && (forall p | p in order :: p != [])
    && (forall i, j | 0 <= i < j < |order| :: Apart(order[i], order[j]))
  }

  predicate ApartFrom(p: Path, m: Flat) { forall q | q in m :: Apart(p, q) }

  // ---------------------------------------------------------------- round trip

  lemma UnderInsert(key: string, m: Flat, rest: Path, v: Value)
    ensures Under(key, m[rest := v]) == Under(key, m)[[key] + rest := v]
  {
    assert ([key] + rest)[1..] == rest;
    forall p ensures p in Under(key, m[rest := v]) <==> p == [key] + rest || p in Under(key, m) {
      if p != [] && p[0] == key && p[1..] == rest { assert p == [key] + rest; }
    }
  }

  lemma ApartBelow(key: string, rest: Path, m: Flat, whole: Flat)
    requires ApartFrom([key] + rest, whole) && forall p | p in Under(key, m) :: p in whole
    ensures ApartFrom(rest, m)
  {
    forall q | q in m ensures Apart(rest, q) {
      var p := [key] + q;
      assert p[1..] == q && p in Under(key, m);
      assert rest <= q ==> [key] + rest <= p;
      assert q <= rest ==> p <= [key] + rest;
    }
  }

  lemma OwnBegins(e: Entry)
    ensures forall p | p in Own(e) :: [e.key] <= p
    ensures e.node.Leaf? ==> [e.key] in Own(e)
  {
  }

  /** Nothing is stored through the path, so its head holds nothing else. */
  lemma HeadIsEmpty(t: Tree, path: Path)
    requires t != [] && |path| == 1 && t[0].key == path[0] && ApartFrom(path, Flatten(t))
    ensures Own(t[0]) == map[] && path !in Flatten(t[1..])
  {
    OwnBegins(t[0]);
    assert path == [t[0].key];
    hide Own;
    forall p ensures p !in Own(t[0]) {
      assert p in Own(t[0]) ==> p in Flatten(t) && path <= p && !Apart(path, p);
    }
  }

  lemma HeadIsSection(t: Tree, path: Path)
    requires t != [] && |path| > 1 && t[0].key == path[0] && ApartFrom(path, Flatten(t))
    ensures t[0].node.Section? && path !in Flatten(t[1..])
    ensures forall p | p in Own(t[0]) :: p in Flatten(t)
  {
    OwnBegins(t[0]);
    var head := [t[0].key];
    assert head <= path && !Apart(path, head);
    assert t[0].node.Leaf? ==> head in Flatten(t);
  }

  lemma MapsJoin(a: Flat, b: Flat, p: Path, v: Value)
    ensures a + b[p := v] == (a + b)[p := v]
    ensures p !in b ==> a[p := v] + b == (a + b)[p := v]
  {
  }

  /** Writing one value changes the flat form at that path and nowhere else. */
  lemma {:induction false} FlattenInsert(t: Tree, path: Path, v: Value)
    requires path != [] && ApartFrom(path, Flatten(t))
    ensures Flatten(Insert(t, path, v)) == Flatten(t)[path := v]
    decreases |path|, |t|
  {
    var key, rest, after := path[0], path[1..], Insert(t, path, v);
    assert path == [key] + rest;
    if t == [] {
      InsertNew(path, v);
    } else if t[0].key != key {
      assert after[0] == t[0] && after[1..] == Insert(t[1..], path, v);
      hide Own, Insert;
      FlattenInsert(t[1..], path, v);
      MapsJoin(Own(t[0]), Flatten(t[1..]), path, v);
    } else if |path| == 1 {
      HeadIsEmpty(t, path);
      assert path == [key] && after[0] == Entry(key, Leaf(v)) && after[1..] == t[1..];
      MapsJoin(map[], Flatten(t[1..]), path, v);
      assert Own(after[0]) == map[][path := v];
    } else {
      HeadIsSection(t, path);
      var entries := t[0].node.entries;
      ApartBelow(key, rest, Flatten(entries), Flatten(t));
      hide Insert, ApartFrom;
      FlattenInsert(entries, rest, v);
      InsertDeeper(t, path, v);
    }
  }

  lemma InsertDeeper(t: Tree, path: Path, v: Value)
    requires |path| > 1 && t != [] && t[0].key == path[0] && t[0].node.Section? && path !in Flatten(t[1..])
    requires Flatten(Insert(t[0].node.entries, path[1..], v)) == Flatten(t[0].node.entries)[path[1..] := v]
    ensures Flatten(Insert(t, path, v)) == Flatten(t)[path := v]
  {
    var entries, after := t[0].node.entries, Insert(t, path, v);
    assert after[0] == Entry(path[0], Section(Insert(entries, path[1..], v))) && after[1..] == t[1..];
    assert path == [path[0]] + path[1..];
    hide Insert;
    UnderInsert(path[0], Flatten(entries), path[1..], v);
    assert Own(after[0]) == Own(t[0])[path := v];
    hide Own;
    MapsJoin(Own(t[0]), Flatten(t[1..]), path, v);
  }

  lemma {:induction false} InsertNew(path: Path, v: Value)
    requires path != []
    ensures Flatten(Insert([], path, v)) == map[path := v]
    decreases |path|
  {
    var after := Insert([], path, v);
    assert path == [path[0]] + path[1..] && after[1..] == [];
    if |path| > 1 {
      var inner := Insert([], path[1..], v);
      assert after == [Entry(path[0], Section(inner))];
      hide Insert;
      InsertNew(path[1..], v);
      UnderInsert(path[0], map[], path[1..], v);
      assert Under(path[0], map[]) == map[];
      assert Own(after[0]) == map[path := v];
    } else {
      assert path == [path[0]] && Own(after[0]) == map[path := v];
    }
  }

  function Keep(order: seq<Path>, m: Flat): Flat
    requires forall p | p in order :: p in m
  {
    map p | p in order :: m[p]
  }

  lemma LastIsApart(order: seq<Path>, m: Flat)
    requires order != [] && PrefixFree(order) && forall p | p in order :: p in m
    ensures var front, last := order[..|order| - 1], order[|order| - 1];
            && PrefixFree(front) && (forall p | p in front :: p in m)
            && ApartFrom(last, Keep(front, m)) && Keep(order, m) == Keep(front, m)[last := m[last]]
  {
    var front, last := order[..|order| - 1], order[|order| - 1];
    assert order == front + [last];
    forall q | q in Keep(front, m) ensures Apart(last, q) {
      var i :| 0 <= i < |front| && front[i] == q;
      assert Apart(order[i], order[|order| - 1]);
    }
  }

  /** What was nested is what is found: `flatten(nest(f)) = f` whenever no path
      runs through another. */
  lemma {:induction false} FlattenNest(order: seq<Path>, m: Flat)
    requires PrefixFree(order) && forall p | p in order :: p in m
    ensures Flatten(Nest(order, m)) == Keep(order, m)
    decreases |order|
  {
    if order != [] {
      LastIsApart(order, m);
      hide Flatten, Insert, Keep, Apart;
      FlattenNest(order[..|order| - 1], m);
      FlattenInsert(Nest(order[..|order| - 1], m), order[|order| - 1], m[order[|order| - 1]]);
    }
  }

  // ------------------------------------------------------ and only then

  predicate UniqueKeys(t: Tree)
    decreases t
  {
    t == [] ||
    ( && (forall i | 1 <= i < |t| :: t[i].key != t[0].key)
      && (t[0].node.Section? ==> UniqueKeys(t[0].node.entries))
      && UniqueKeys(t[1..]))
  }

  lemma {:induction false} InsertKeepsUnique(t: Tree, path: Path, v: Value)
    requires path != [] && UniqueKeys(t)
    ensures UniqueKeys(Insert(t, path, v))
    ensures forall e | e in Insert(t, path, v) :: e.key == path[0] || exists f :: f in t && f.key == e.key
    decreases |path|, |t|
  {
    var after := Insert(t, path, v);
    if t == [] {
      if |path| > 1 { InsertKeepsUnique([], path[1..], v); }
      assert after[1..] == [];
    } else if t[0].key != path[0] {
      InsertKeepsUnique(t[1..], path, v);
      assert after[1..] == Insert(t[1..], path, v);
      forall i | 1 <= i < |after| ensures after[i].key != t[0].key {
        assert after[i] in after[1..];
        if after[i].key != path[0] {
          var f :| f in t[1..] && f.key == after[i].key;
          var j :| 0 <= j < |t| - 1 && t[1..][j] == f;
          assert t[j + 1] == f;
        }
      }
    } else {
      if |path| > 1 { InsertKeepsUnique(if t[0].node.Section? then t[0].node.entries else [], path[1..], v); }
      assert after[1..] == t[1..];
    }
  }

  lemma {:induction false} NestIsUnique(order: seq<Path>, m: Flat)
    requires forall p | p in order :: p in m && p != []
    ensures UniqueKeys(Nest(order, m))
    decreases |order|
  {
    if order != [] {
      NestIsUnique(order[..|order| - 1], m);
      InsertKeepsUnique(Nest(order[..|order| - 1], m), order[|order| - 1], m[order[|order| - 1]]);
    }
  }

  ghost predicate AllApart(m: Flat) { forall p, q | p in m && q in m && p != q :: Apart(p, q) }

  lemma {:induction false} PathsBegin(t: Tree, p: Path)
    requires p in Flatten(t)
    ensures p != [] && exists i :: 0 <= i < |t| && t[i].key == p[0]
  {
    if p in Flatten(t[1..]) {
      PathsBegin(t[1..], p);
      var i :| 0 <= i < |t| - 1 && t[1..][i].key == p[0];
      assert t[i + 1].key == p[0];
    } else {
      OwnBegins(t[0]);
      assert [t[0].key] <= p;
    }
  }

  lemma {:induction false} OwnIsApart(e: Entry)
    requires e.node.Section? ==> AllApart(Flatten(e.node.entries))
    ensures AllApart(Own(e))
  {
    if e.node.Section? {
      forall p, q | p in Own(e) && q in Own(e) && p != q ensures Apart(p, q) {
        assert p[1..] in Flatten(e.node.entries) && q[1..] in Flatten(e.node.entries);
        assert p == [e.key] + p[1..] && q == [e.key] + q[1..];
        assert Apart(p[1..], q[1..]);
      }
    }
  }

  /** No path of an object runs through another one's value. */
  lemma {:induction false} FlattenIsApart(t: Tree)
    requires UniqueKeys(t)
    ensures AllApart(Flatten(t))
    decreases t
  {
    if t == [] { return; }
    if t[0].node.Section? { FlattenIsApart(t[0].node.entries); }
    OwnIsApart(t[0]);
    FlattenIsApart(t[1..]);
    hide Own, AllApart, Apart;
    forall p, q | p in Own(t[0]) && q in Flatten(t[1..]) ensures Apart(p, q) && Apart(q, p) { HeadIsApart(t, p, q); }
    JoinIsApart(Own(t[0]), Flatten(t[1..]));
  }

  lemma HeadIsApart(t: Tree, p: Path, q: Path)
    requires t != [] && UniqueKeys(t) && p in Own(t[0]) && q in Flatten(t[1..])
    ensures Apart(p, q) && Apart(q, p)
  {
    OwnBegins(t[0]);
    PathsBegin(t[1..], q);
    hide Own, Flatten;
    assert [t[0].key] <= p;
    var i :| 0 <= i < |t[1..]| && t[1..][i].key == q[0];
    assert t[i + 1].key == q[0];
  }

  lemma JoinIsApart(a: Flat, b: Flat)
    requires AllApart(a) && AllApart(b) && forall p, q | p in a && q in b :: Apart(p, q) && Apart(q, p)
    ensures AllApart(a + b)
  {
    hide Apart;
    forall p, q | p in a + b && q in a + b && p != q ensures Apart(p, q) {
      assert p in a || p in b;
      assert q in a || q in b;
    }
  }

  /** Of paths that are all different, each keeps its value if and only if none
      runs through another. */
  lemma NestKeepsIff(order: seq<Path>, m: Flat)
    requires forall p | p in order :: p in m && p != []
    requires forall i, j | 0 <= i < j < |order| :: order[i] != order[j]
    ensures Flatten(Nest(order, m)) == Keep(order, m) <==> PrefixFree(order)
  {
    if PrefixFree(order) {
      FlattenNest(order, m);
    } else {
      var i, j :| 0 <= i < j < |order| && !Apart(order[i], order[j]);
      NestIsUnique(order, m);
      FlattenIsApart(Nest(order, m));
      assert order[i] in Keep(order, m) && order[j] in Keep(order, m);
    }
  }

  /** For one, a value set on the way to another one's path. */
  lemma NestLosesThroughPaths() returns (order: seq<Path>, m: Flat)
    ensures (forall p | p in order :: p in m && p != []) && |order| == 2 && order[0] != order[1]
    ensures Flatten(Nest(order, m)) != Keep(order, m)
  {
    var a, b := ["a", "b"], ["a"];
    order, m := [a, b], map[a := Flag(true), b := Flag(false)];
    assert order[..1] == [a] && order[..1][..0] == [];
    assert Nest(order[..1], m) == Insert([], a, Flag(true));
    assert a[1..] == ["b"];
    var inner := Section([Entry("b", Leaf(Flag(true)))]);
    assert Nest(order[..1], m) == [Entry("a", inner)];
    assert Nest(order, m) == Insert([Entry("a", inner)], b, Flag(false));
    assert Nest(order, m) == [Entry("a", Leaf(Flag(false)))];
    assert Flatten(Nest(order, m)) == map[["a"] := Flag(false)] + Flatten([]);
    assert a in Keep(order, m) && a !in Flatten(Nest(order, m));
  }
}
