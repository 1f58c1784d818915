/** Layered configuration: defaults below a document below explicit overrides,
    with the layer each value came from, and the snapshot a mission resumes on. */
module EffectiveConfig {
  import opened OperationStore
  import opened ConfigTree

  /** The table of options.  `order`: every option once; `known`: a section is
      accepted when some option, old or new, lies in it. */
  datatype Table = Table(
    order: seq<Path>, defaults: Flat, legacy: set<Path>, deprecated: set<Path>, aliases: seq<(Path, Path)>,
    valid: (Path, Value) -> bool, profilesOk: Flat -> bool, keyOk: string -> bool)

  function Fields(t: Table): set<Path> { set p | p in t.order }

  /** What the table itself guarantees. */
  ghost predicate TableOk(t: Table) {
    && PrefixFree(t.order) && t.defaults.Keys == Fields(t) && t.legacy <= Fields(t)
    && t.deprecated !! Fields(t)
    && (forall a | a in t.aliases :: a.0 !in Fields(t) && a.1 in Fields(t))
    && (forall p | p in t.defaults :: t.valid(p, t.defaults[p]))
    && (forall p | p in t.order :: forall k | k in p :: t.keyOk(k))
  }

  datatype Warning = Migrated(was: Path, now: Path) | Dead(path: Path)

  datatype Config = Config(values: Tree, sources: map<Path, string>, warnings: set<Warning>, version: nat)

  /** A document, or a configuration that was resolved before. */
  datatype Layer = Layer(values: Tree, prior: Option<Config>, origin: string)

  const NoLayer := Layer([], None, "invocation override")

  // ------------------------------------------------------------ one document

  function Names(t: Table): set<Path> { Fields(t) + t.deprecated + set a | a in t.aliases :: a.0 }

  predicate SectionKnown(path: Path, t: Table) { exists q :: q in Names(t) && path < q }

  /** Keys are well formed and no section is unknown. */
  predicate Readable(tree: Tree, prefix: Path, t: Table)
    decreases tree
  {
    tree == [] ||
    (&& t.keyOk(tree[0].key)
     && (tree[0].node.Section? ==>
           SectionKnown(prefix + [tree[0].key], t) && Readable(tree[0].node.entries, prefix + [tree[0].key], t))
     && Readable(tree[1..], prefix, t))
  }

  /** Old names become new ones; None when both are given and differ. */
  function Migrate(m: Flat, aliases: seq<(Path, Path)>): Option<Flat>
    decreases |aliases|
  {
    if aliases == [] then Some(m) else
    var before := Migrate(m, aliases[..|aliases| - 1]);
    var a := aliases[|aliases| - 1];
    if before.None? then None
    else if a.0 !in before.value then before
    else if a.1 in before.value && before.value[a.1] != before.value[a.0] then None
    else Some((before.value - {a.0})[a.1 := before.value[a.0]])
  }

  function Migrations(m: Flat, aliases: seq<(Path, Path)>): set<Warning>
    decreases |aliases|
  {
    if aliases == [] then {} else
    var front, a := aliases[..|aliases| - 1], aliases[|aliases| - 1];
    var before := Migrate(m, front);
    Migrations(m, front) + (if before.Some? && a.0 in before.value then {Migrated(a.0, a.1)} else {})
  }

  predicate Acceptable(m: Flat, t: Table) {
    forall p | p in m :: p in t.deprecated || (p in Fields(t) && t.valid(p, m[p]))
  }

  function Deads(m: Flat, t: Table): set<Warning> { set p | p in m && p in t.deprecated :: Dead(p) }

  /** The options a document sets; None when it is refused. */
  function Given(layer: Layer, t: Table): Option<Flat> {
    if !Readable(layer.values, [], t) then None else
    var m := Migrate(Flatten(layer.values), t.aliases);
    if m.None? || !Acceptable(m.value, t) then None else Some(m.value)
  }

  function WarningsOf(layer: Layer, t: Table): set<Warning>
    requires Given(layer, t).Some?
  {
    (if layer.prior.Some? then layer.prior.value.warnings else {})
    + Migrations(Flatten(layer.values), t.aliases)
    + Deads(Migrate(Flatten(layer.values), t.aliases).value, t)
  }

  // --------------------------------------------------------------- resolution

  /** Right-biased override: the last layer that sets an option wins. */
  function Over(base: Flat, m: Flat): Flat { map p | p in base :: if p in m then m[p] else base[p] }

  function LabelOf(layer: Layer, p: Path): string {
    if layer.prior.Some? && p in layer.prior.value.sources then layer.prior.value.sources[p] else layer.origin
  }

  function Relabel(sources: map<Path, string>, m: Flat, layer: Layer): map<Path, string> {
    map p | p in sources :: if p in m then LabelOf(layer, p) else sources[p]
  }

  function Built(t: Table): map<Path, string> { map p | p in Fields(t) :: "built-in default" }

  function Resolve(values: Layer, overrides: Layer, t: Table): Option<Config>
    requires t.defaults.Keys == Fields(t) && forall p | p in t.order :: p != []
  {
    var a, b := Given(values, t), Given(overrides, t);
    if a.None? || b.None? then None else
    var flat := Over(Over(t.defaults, a.value), b.value);
    if !t.profilesOk(flat) then None
    else Some(Config(Nest(t.order, flat), Relabel(Relabel(Built(t), a.value, values), b.value, overrides),
                     WarningsOf(values, t) + WarningsOf(overrides, t), 2))
  }

  // ------------------------------------------------------ resolution as it runs

  method NestValues(order: seq<Path>, m: Flat) returns (out: Tree)
    requires forall p | p in order :: p in m && p != []
    ensures out == Nest(order, m)
  {
    out := [];
    for i := 0 to |order|
      invariant out == Nest(order[..i], m)
    {
      assert order[..i + 1][..i] == order[..i] && order[i] in order;
      out := Insert(out, order[i], m[order[i]]);
    }
    assert order[..|order|] == order;
  }

  method MigrateAliases(m: Flat, t: Table) returns (r: Option<Flat>, warnings: set<Warning>)
    ensures r == Migrate(m, t.aliases) && (r.Some? ==> warnings == Migrations(m, t.aliases))
  {
    var incoming := m;
    warnings := {};
    for i := 0 to |t.aliases|
      invariant Migrate(m, t.aliases[..i]) == Some(incoming) && warnings == Migrations(m, t.aliases[..i])
    {
      assert t.aliases[..i + 1][..i] == t.aliases[..i];
      var a := t.aliases[i];
      if a.0 in incoming {
        if a.1 in incoming && incoming[a.1] != incoming[a.0] {
          NoMigration(m, t.aliases, i + 1);
          return None, warnings;
        }
        incoming := (incoming - {a.0})[a.1 := incoming[a.0]];
        warnings := warnings + {Migrated(a.0, a.1)};
      }
    }
    assert t.aliases[..|t.aliases|] == t.aliases;
    return Some(incoming), warnings;
  }

  lemma {:induction false} NoMigration(m: Flat, aliases: seq<(Path, Path)>, i: nat)
    requires i <= |aliases| && Migrate(m, aliases[..i]).None?
    ensures Migrate(m, aliases).None?
    decreases |aliases| - i
  {
    if i < |aliases| {
      assert aliases[..i + 1][..i] == aliases[..i];
      NoMigration(m, aliases, i + 1);
    } else {
      assert aliases[..i] == aliases;
    }
  }

  /** `now` is `below` with the options in `done` already written over it. */
  ghost predicate Written<T>(m: map<Path, T>, done: set<Path>, below: map<Path, T>, now: map<Path, T>) {
    now.Keys == below.Keys && forall p | p in below :: now[p] == if p in done && p in m then m[p] else below[p]
  }

  lemma WriteOne<T>(m: map<Path, T>, done: set<Path>, below: map<Path, T>, now: map<Path, T>, p: Path)
    requires Written(m, done, below, now) && p in m
    ensures Written(m, done + {p}, below, if p in below then now[p := m[p]] else now)
  {
  }

  ghost predicate DeadSoFar(dead: set<Warning>, m: Flat, done: set<Path>, t: Table) {
    forall w :: w in dead <==> w.Dead? && w.path in m && w.path in done && w.path in t.deprecated
  }

  lemma NoteDead(dead: set<Warning>, m: Flat, done: set<Path>, t: Table, p: Path)
    requires DeadSoFar(dead, m, done, t) && p in m
    ensures DeadSoFar(if p in t.deprecated then dead + {Dead(p)} else dead, m, done + {p}, t)
  {
  }

  predicate OptionOk(m: Flat, t: Table, p: Path)
    requires p in m
  {
    p in t.deprecated || (p in Fields(t) && t.valid(p, m[p]))
  }

  /** Option by option; a dead one is reported, an unknown or invalid one
      refuses the whole document. */
  method OverlayOptions(m: Flat, layer: Layer, t: Table, below: Flat, marked: map<Path, string>)
    returns (ok: bool, flat: Flat, sources: map<Path, string>, dead: set<Warning>)
    requires below.Keys == Fields(t) && marked.Keys == Fields(t) && t.deprecated !! Fields(t)
    ensures ok == Acceptable(m, t)
    ensures ok ==> flat == Over(below, m) && sources == Relabel(marked, m, layer) && dead == Deads(m, t)
  {
    hide LabelOf, Over, Relabel, Deads, Written, DeadSoFar, Acceptable;
    ghost var labels := map p | p in m :: LabelOf(layer, p);
    flat, sources, dead := below, marked, {};
    var todo := m.Keys;
    Nothing(m, below, labels, marked, t);
    while todo != {}
      invariant todo <= m.Keys && flat.Keys == Fields(t) && sources.Keys == Fields(t)
      invariant forall p | p in m.Keys - todo :: OptionOk(m, t, p)
      invariant Written(m, m.Keys - todo, below, flat) && Written(labels, m.Keys - todo, marked, sources)
      invariant DeadSoFar(dead, m, m.Keys - todo, t)
      decreases |todo|
    {
      var p :| p in todo;
      ghost var done := m.Keys - todo;
      if !(p in t.deprecated) && (p !in t.order || !t.valid(p, m[p])) {
        Refused(m, t, p);
        return false, flat, sources, dead;
      }
      WriteOne(m, done, below, flat, p);
      WriteOne(labels, done, marked, sources, p);
      NoteDead(dead, m, done, t, p);
      if p in t.deprecated {
        dead := dead + {Dead(p)};
      } else {
        flat, sources := flat[p := m[p]], sources[p := LabelOf(layer, p)];
      }
      todo := todo - {p};
      assert m.Keys - todo == done + {p};
    }
    assert m.Keys - todo == m.Keys;
    Everything(m, layer, t, below, flat, labels, marked, sources, dead);
    ok := true;
  }

  lemma Nothing(m: Flat, below: Flat, labels: map<Path, string>, marked: map<Path, string>, t: Table)
    ensures Written(m, m.Keys - m.Keys, below, below) && Written(labels, m.Keys - m.Keys, marked, marked)
    ensures DeadSoFar({}, m, m.Keys - m.Keys, t)
  {
  }

  lemma Refused(m: Flat, t: Table, p: Path)
    requires p in m && !OptionOk(m, t, p)
    ensures !Acceptable(m, t)
  {
  }

  lemma Everything(m: Flat, layer: Layer, t: Table, below: Flat, flat: Flat, labels: map<Path, string>,
                   marked: map<Path, string>, sources: map<Path, string>, dead: set<Warning>)
    requires forall p | p in m :: OptionOk(m, t, p)
    requires labels == map p | p in m :: LabelOf(layer, p)
    requires Written(m, m.Keys, below, flat) && Written(labels, m.Keys, marked, sources) && DeadSoFar(dead, m, m.Keys, t)
    ensures Acceptable(m, t) && flat == Over(below, m) && sources == Relabel(marked, m, layer) && dead == Deads(m, t)
  {
    DeadsMembers(m, t);
  }

  lemma DeadsMembers(m: Flat, t: Table)
    ensures forall w :: w in Deads(m, t) <==> w.Dead? && w.path in m && w.path in t.deprecated
  {
  }

  method ApplyLayer(layer: Layer, t: Table, below: Flat, marked: map<Path, string>)
    returns (ok: bool, flat: Flat, sources: map<Path, string>, warnings: set<Warning>)
    requires below.Keys == Fields(t) && marked.Keys == Fields(t) && t.deprecated !! Fields(t)
    ensures ok == Given(layer, t).Some?
    ensures ok ==>
              flat == Over(below, Given(layer, t).value) && sources == Relabel(marked, Given(layer, t).value, layer)
    ensures ok ==> warnings == WarningsOf(layer, t)
  {
    hide Readable, Flatten, Migrate, Migrations, Over, Relabel, Acceptable, Deads;
    ok, flat, sources, warnings := false, below, marked, if layer.prior.Some? then layer.prior.value.warnings else {};
    if !Readable(layer.values, [], t) { return; }
    var incoming, migrated := MigrateAliases(Flatten(layer.values), t);
    if incoming.None? { return; }
    var dead;
    ok, flat, sources, dead := OverlayOptions(incoming.value, layer, t, below, marked);
    warnings := warnings + migrated + dead;
  }

  /** Both layers over the defaults, then the check that spans options. */
  method ResolveConfig(values: Layer, overrides: Layer, t: Table) returns (r: Option<Config>)
    requires TableOk(t)
    ensures r == Resolve(values, overrides, t)
  {
    hide Given, WarningsOf, Over, Relabel, Nest;
    var flat, sources := t.defaults, Built(t);
    var ok, warnings, more;
    ok, flat, sources, warnings := ApplyLayer(values, t, flat, sources);
    if !ok { return None; }
    OverKeys(t.defaults, Given(values, t).value, Built(t), values);
    ok, flat, sources, more := ApplyLayer(overrides, t, flat, sources);
    if !ok { return None; }
    OverKeys(Over(t.defaults, Given(values, t).value), Given(overrides, t).value, Relabel(Built(t), Given(values, t).value, values), overrides);
    if !t.profilesOk(flat) { return None; }
    var nested := NestValues(t.order, flat);
    return Some(Config(nested, sources, warnings + more, 2));
  }

  lemma OverKeys(base: Flat, m: Flat, sources: map<Path, string>, layer: Layer)
    ensures Over(base, m).Keys == base.Keys && Relabel(sources, m, layer).Keys == sources.Keys
  {
  }

  // ------------------------------------------------------------- the snapshot

  datatype Snapshot = Snapshot(version: nat, revision: string, values: Tree, sources: map<Path, string>, warnings: set<Warning>)

  function Snap(c: Config, hash: Flat -> string): Snapshot {
    Snapshot(c.version, hash(Flatten(c.values)), c.values, c.sources, c.warnings)
  }

  const SOURCES := {"built-in default", "config/default.yaml", "explicit input", "invocation override", "mission input"}

  function FieldsOf(version: nat, t: Table): set<Path> { if version == 1 then t.legacy else Fields(t) }

  predicate KnownWarning(w: Warning, t: Table) {
    match w
    case Migrated(was, now) => (was, now) in t.aliases
    case Dead(path) => path in t.deprecated
  }

  /** A snapshot is taken over as it is or not at all. */
  function Restore(s: Snapshot, hash: Flat -> string, t: Table): Option<Config>
    requires t.defaults.Keys == Fields(t) && forall p | p in t.order :: p != []
  {
    if s.version != 1 && s.version != 2 then None
    else if !Readable(s.values, [], t) || Flatten(s.values).Keys != FieldsOf(s.version, t) then None
    else
      var c := Resolve(Layer(s.values, None, "explicit input"), NoLayer, t);
      if c.None? || c.value.warnings != {} then None
      else
        var values := if s.version == 1 then s.values else c.value.values;
        if hash(Flatten(values)) != s.revision || s.sources.Keys != FieldsOf(s.version, t) then None
        else if !(forall p | p in s.sources :: s.sources[p] in SOURCES) || !(forall w | w in s.warnings :: KnownWarning(w, t)) then None
        else Some(Config(values, s.sources, s.warnings, s.version))
  }

  // ------------------------------------------------- what resolution produces

  function FlatOf(values: Layer, overrides: Layer, t: Table): Flat
    requires Given(values, t).Some? && Given(overrides, t).Some?
  {
    Over(Over(t.defaults, Given(values, t).value), Given(overrides, t).value)
  }

  /** Every option once, each with a value it accepts. */
  ghost predicate Complete(flat: Flat, t: Table) {
    flat.Keys == Fields(t) && forall p | p in flat :: t.valid(p, flat[p])
  }

  lemma {:induction false} InsertIsReadable(tree: Tree, prefix: Path, path: Path, v: Value, t: Table)
    requires path != [] && Readable(tree, prefix, t)
    requires prefix + path in Names(t) && forall k | k in path :: t.keyOk(k)
    ensures Readable(Insert(tree, path, v), prefix, t)
    decreases |path|, |tree|
  {
    hide Names;
    var head, rest := prefix + [path[0]], path[1..];
    assert path[0] in path && prefix + path == head + rest;
    assert |path| > 1 ==> head < prefix + path && forall k | k in rest :: k in path;
    if tree != [] && tree[0].key != path[0] {
      InsertIsReadable(tree[1..], prefix, path, v, t);
    } else if |path| > 1 {
      var entries := if tree != [] && tree[0].node.Section? then tree[0].node.entries else [];
      InsertIsReadable(entries, head, rest, v, t);
    }
  }

  lemma {:induction false} NestIsReadable(order: seq<Path>, m: Flat, t: Table)
    requires forall p | p in order :: p in m && p != [] && p in Names(t) && forall k | k in p :: t.keyOk(k)
    ensures Readable(Nest(order, m), [], t)
    decreases |order|
  {
    hide Names, Readable;
    if order != [] {
      var front, last := order[..|order| - 1], order[|order| - 1];
      assert forall p | p in front :: p in order;
      NestIsReadable(front, m, t);
      assert [] + last == last && last in order;
      InsertIsReadable(Nest(front, m), [], last, m[last], t);
    } else {
      EmptyIsReadable(t);
    }
  }

  lemma EmptyIsReadable(t: Table)
    ensures Readable([], [], t)
  {
  }

  lemma {:induction false} NothingToMigrate(m: Flat, aliases: seq<(Path, Path)>)
    requires forall a | a in aliases :: a.0 !in m
    ensures Migrate(m, aliases) == Some(m) && Migrations(m, aliases) == {}
    decreases |aliases|
  {
    if aliases != [] {
      assert forall a | a in aliases[..|aliases| - 1] :: a in aliases;
      NothingToMigrate(m, aliases[..|aliases| - 1]);
    }
  }

  function PriorWarnings(layer: Layer): set<Warning> { if layer.prior.Some? then layer.prior.value.warnings else {} }

  /** A complete set of options reads back as itself, without a warning. */
  lemma CompleteReadsBack(flat: Flat, prior: Option<Config>, origin: string, t: Table)
    requires TableOk(t) && Complete(flat, t)
    ensures Flatten(Nest(t.order, flat)) == flat
    ensures var layer := Layer(Nest(t.order, flat), prior, origin);
            Given(layer, t) == Some(flat) && WarningsOf(layer, t) == PriorWarnings(layer)
  {
    hide PrefixFree, Nest, Flatten, Readable, Migrate, Migrations;
    OrderIsUsable(t);
    FlattenNest(t.order, flat);
    assert Keep(t.order, flat) == flat;
    NestIsReadable(t.order, flat, t);
    NothingToMigrate(flat, t.aliases);
  }

  lemma OrderIsUsable(t: Table)
    requires TableOk(t)
    ensures forall p | p in t.order :: p != [] && p in Names(t) && p in t.defaults
  {
  }

  lemma NoLayerSetsNothing(t: Table)
    ensures Given(NoLayer, t) == Some(map[]) && WarningsOf(NoLayer, t) == {}
  {
    NothingToMigrate(map[], t.aliases);
  }

  lemma OverIsComplete(values: Layer, overrides: Layer, t: Table)
    requires TableOk(t) && Given(values, t).Some? && Given(overrides, t).Some?
    ensures Complete(FlatOf(values, overrides, t), t)
  {
    hide Readable, Migrate, Flatten, PrefixFree;
  }

  // ------------------------------------------------------------ main theorems

  /** The winning layer gives both the value and the source it is filed under. */
  lemma WinnerTakesOption(values: Layer, overrides: Layer, t: Table, p: Path)
    requires TableOk(t) && p in t.order
    ensures Resolve(values, overrides, t).Some? ==>
            var c := Resolve(values, overrides, t).value;
            var a, b := Given(values, t).value, Given(overrides, t).value;
            && p in Flatten(c.values) && p in c.sources
            && Flatten(c.values)[p] == (if p in b then b[p] else if p in a then a[p] else t.defaults[p])
            && c.sources[p] == (if p in b then LabelOf(overrides, p) else if p in a then LabelOf(values, p) else "built-in default")
  {
    hide Given, WarningsOf, Nest, Flatten, PrefixFree;
    OrderIsUsable(t);
    if Resolve(values, overrides, t).Some? {
      OverIsComplete(values, overrides, t);
      CompleteReadsBack(FlatOf(values, overrides, t), None, "", t);
    }
  }

  /** A complete layer hides everything below it and keeps its own sources. */
  lemma CompleteLayerWins(flat: Flat, layer: Layer, t: Table)
    requires flat.Keys == Fields(t) && t.defaults.Keys == Fields(t)
    ensures Over(Over(t.defaults, flat), map[]) == flat
    ensures layer.prior.Some? && layer.prior.value.sources.Keys == Fields(t) ==>
              Relabel(Relabel(Built(t), flat, layer), map[], NoLayer) == layer.prior.value.sources
  {
  }

  lemma SourcesAreComplete(values: Layer, overrides: Layer, t: Table)
    requires TableOk(t) && Resolve(values, overrides, t).Some?
    ensures Resolve(values, overrides, t).value.sources.Keys == Fields(t)
  {
    hide Given, WarningsOf, Nest, FlatOf, LabelOf;
  }

  /** Resolving a resolved configuration again changes nothing. */
  lemma ResolveIsIdempotent(values: Layer, overrides: Layer, t: Table, origin: string)
    requires TableOk(t) && Resolve(values, overrides, t).Some?
    ensures var c := Resolve(values, overrides, t).value;
            Resolve(Layer(c.values, Some(c), origin), NoLayer, t) == Some(c)
  {
    hide Given, WarningsOf, Nest, PrefixFree, LabelOf;
    OrderIsUsable(t);
    SourcesAreComplete(values, overrides, t);
    OverIsComplete(values, overrides, t);
    var c, flat := Resolve(values, overrides, t).value, FlatOf(values, overrides, t);
    CompleteReadsBack(flat, Some(c), origin, t);
    NoLayerSetsNothing(t);
    hide Over, Relabel;
    CompleteLayerWins(flat, Layer(c.values, Some(c), origin), t);
    assert c.warnings + {} == c.warnings;
  }

  /** Layers may be resolved one after the other. */
  lemma ResolveLayerByLayer(values: Layer, overrides: Layer, t: Table, origin: string)
    requires TableOk(t) && Resolve(values, NoLayer, t).Some?
    ensures var first := Resolve(values, NoLayer, t).value;
            Resolve(Layer(first.values, Some(first), origin), overrides, t) == Resolve(values, overrides, t)
  {
    hide Given, WarningsOf, Nest, PrefixFree;
    OrderIsUsable(t);
    NoLayerSetsNothing(t);
    OverIsComplete(values, NoLayer, t);
    var first, flat, a := Resolve(values, NoLayer, t).value, FlatOf(values, NoLayer, t), Given(values, t).value;
    CompleteReadsBack(flat, Some(first), origin, t);
    hide Over, Relabel;
    FirstLayerStands(a, values, first, flat, origin, t);
    assert first.warnings == WarningsOf(values, t);
  }

  lemma FirstLayerStands(a: Flat, values: Layer, first: Config, flat: Flat, origin: string, t: Table)
    requires t.defaults.Keys == Fields(t) && flat == Over(Over(t.defaults, a), map[])
    requires first.sources == Relabel(Relabel(Built(t), a, values), map[], NoLayer)
    ensures Over(t.defaults, flat) == Over(t.defaults, a)
    ensures Relabel(Built(t), flat, Layer(first.values, Some(first), origin)) == Relabel(Built(t), a, values)
  {
    hide LabelOf;
    assert flat.Keys == Fields(t);
    var marked := Relabel(Built(t), a, values);
    assert first.sources == marked;
    hide Over;
    AllRelabelled(flat, first, marked, origin, t);
  }

  lemma AllRelabelled(flat: Flat, first: Config, marked: map<Path, string>, origin: string, t: Table)
    requires flat.Keys == Fields(t) && first.sources == marked && marked.Keys == Fields(t)
    ensures Relabel(Built(t), flat, Layer(first.values, Some(first), origin)) == marked
  {
    hide LabelOf;
    var layer := Layer(first.values, Some(first), origin);
    forall p | p in Fields(t) ensures LabelOf(layer, p) == marked[p] { PriorLabel(layer, p); }
  }

  lemma PriorLabel(layer: Layer, p: Path)
    requires layer.prior.Some? && p in layer.prior.value.sources
    ensures LabelOf(layer, p) == layer.prior.value.sources[p]
  {
  }

  lemma {:induction false} MigrationsAreKnown(m: Flat, aliases: seq<(Path, Path)>, t: Table)
    requires forall a | a in aliases :: a in t.aliases
    ensures forall w | w in Migrations(m, aliases) :: KnownWarning(w, t)
    decreases |aliases|
  {
    if aliases != [] {
      assert forall a | a in aliases[..|aliases| - 1] :: a in aliases;
      MigrationsAreKnown(m, aliases[..|aliases| - 1], t);
      assert aliases[|aliases| - 1] in aliases;
    }
  }

  lemma WarningsAreKnown(layer: Layer, t: Table)
    requires Given(layer, t).Some? && forall w | w in PriorWarnings(layer) :: KnownWarning(w, t)
    ensures forall w | w in WarningsOf(layer, t) :: KnownWarning(w, t)
  {
    hide Readable, Flatten;
    MigrationsAreKnown(Flatten(layer.values), t.aliases, t);
  }

  /** What a snapshot of `flat` under version 2 restores to. */
  lemma RestoreComplete(flat: Flat, s: Snapshot, hash: Flat -> string, t: Table)
    requires TableOk(t) && Complete(flat, t) && t.profilesOk(flat) && s.version == 2 && s.values == Nest(t.order, flat)
    requires s.revision == hash(flat) && s.sources.Keys == Fields(t) && forall w | w in s.warnings :: KnownWarning(w, t)
    ensures Restore(s, hash, t) == if forall p | p in s.sources :: s.sources[p] in SOURCES
                                   then Some(Config(s.values, s.sources, s.warnings, 2)) else None
  {
    hide WarningsOf, Nest, PrefixFree, Migrate, KnownWarning;
    CompleteReadsBack(flat, None, "explicit input", t);
    NoLayerSetsNothing(t);
    assert Over(Over(t.defaults, flat), map[]) == flat;
    assert Readable(s.values, [], t);
  }

  /** A snapshot of anything resolution produced restores to exactly that, if
      and only if every source is one of the five a mission may name. */
  lemma SnapshotRoundTrip(values: Layer, overrides: Layer, t: Table, hash: Flat -> string)
    requires TableOk(t) && Resolve(values, overrides, t).Some?
    requires forall w | w in PriorWarnings(values) + PriorWarnings(overrides) :: KnownWarning(w, t)
    ensures var c := Resolve(values, overrides, t).value;
            && ((forall p | p in c.sources :: c.sources[p] in SOURCES) <==> Restore(Snap(c, hash), hash, t).Some?)
            && (Restore(Snap(c, hash), hash, t).Some? ==> Restore(Snap(c, hash), hash, t).value == c)
  {
    var c, flat := Resolve(values, overrides, t).value, FlatOf(values, overrides, t);
    WarningsAreKnown(values, t);
    WarningsAreKnown(overrides, t);
    OverIsComplete(values, overrides, t);
    CompleteReadsBack(flat, None, "", t);
    hide Given, WarningsOf, Nest, PrefixFree, Restore, KnownWarning;
    RestoreComplete(flat, Snap(c, hash), hash, t);
  }

  /** Restoring never substitutes a default: what it returns holds the snapshot's
      own options and sources, under its own revision. */
  lemma RestoreIsFaithful(s: Snapshot, hash: Flat -> string, t: Table)
    requires TableOk(t) && Restore(s, hash, t).Some?
    ensures var c := Restore(s, hash, t).value;
            && Flatten(c.values) == Flatten(s.values) && hash(Flatten(c.values)) == s.revision
            && c.sources == s.sources && c.warnings == s.warnings && c.version == s.version
            && Flatten(c.values).Keys == FieldsOf(s.version, t)
  {
    hide Readable, WarningsOf, Nest, PrefixFree, Flatten, Migrate, KnownWarning;
    if s.version == 2 {
      var layer, flat := Layer(s.values, None, "explicit input"), Flatten(s.values);
      NoLayerSetsNothing(t);
      OverIsComplete(layer, NoLayer, t);
      AliasesAreNotFields(t, flat);
      NothingToMigrate(flat, t.aliases);
      var full := FlatOf(layer, NoLayer, t);
      assert full == flat;
      CompleteReadsBack(full, None, "", t);
    }
  }

  lemma AliasesAreNotFields(t: Table, flat: Flat)
    requires TableOk(t) && flat.Keys == Fields(t)
    ensures forall a | a in t.aliases :: a.0 !in flat
  {
    hide PrefixFree;
  }

  /** A restored configuration can be stored and restored again, old version or
      new. */
  lemma RestoreIsStable(s: Snapshot, hash: Flat -> string, t: Table)
    requires TableOk(t) && Restore(s, hash, t).Some?
    ensures Restore(Snap(Restore(s, hash, t).value, hash), hash, t) == Restore(s, hash, t)
  {
    RestoreIsFaithful(s, hash, t);
    var c := Restore(s, hash, t).value;
    if s.version == 1 {
      assert Snap(c, hash) == s;
    } else {
      var layer := Layer(s.values, None, "explicit input");
      NoLayerSetsNothing(t);
      OverIsComplete(layer, NoLayer, t);
      var flat := FlatOf(layer, NoLayer, t);
      CompleteReadsBack(flat, None, "", t);
      hide Given, WarningsOf, Nest, PrefixFree, KnownWarning;
      RestoreComplete(flat, Snap(c, hash), hash, t);
    }
  }
}
