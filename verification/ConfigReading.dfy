/** How a document is read into options, said of the document itself: old names
    count as the new ones, what is refused and why, and which value each option
    ends up with. */
module ConfigReading {
  import opened OperationStore
  import opened ConfigTree
  import opened EffectiveConfig

  type Aliases = seq<(Path, Path)>

  /** Every old name is listed once, and no new name is itself an old one. */
  predicate AliasesOk(aliases: Aliases) {
    && (forall i, j | 0 <= i < j < |aliases| :: aliases[i].0 != aliases[j].0)
    && (forall a, b | a in aliases && b in aliases :: a.0 != b.1)
  }

  predicate OldName(aliases: Aliases, p: Path) { exists a :: a in aliases && a.0 == p }

  /** Whatever is given for one option under several names is given alike. */
  ghost predicate Agreeing(m: Flat, aliases: Aliases) {
    && (forall a | a in aliases && a.0 in m && a.1 in m :: m[a.0] == m[a.1])
    && (forall a, b | a in aliases && b in aliases && a.0 in m && b.0 in m && a.1 == b.1 :: m[a.0] == m[b.0])
  }

  /** The document gives option `p` this value, under its own name or an old one. */
  ghost predicate Asks(m: Flat, aliases: Aliases, p: Path, v: Value) {
    || (p in m && !OldName(aliases, p) && m[p] == v)
    || exists a :: a in aliases && a.1 == p && a.0 in m && m[a.0] == v
  }

  /** The options read are exactly the ones asked for. */
  ghost predicate ReadAs(m: Flat, aliases: Aliases, out: Flat) {
    forall p, v :: Asks(m, aliases, p, v) <==> p in out && out[p] == v
  }

  lemma Front(aliases: Aliases)
    requires AliasesOk(aliases) && aliases != []
    ensures var front, last := aliases[..|aliases| - 1], aliases[|aliases| - 1];
            && AliasesOk(front) && !OldName(front, last.0) && !OldName(front, last.1) && last.0 != last.1
            && (forall a :: a in aliases <==> a in front || a == last)
            && (forall a | a in front :: a.0 != last.0 && a.1 != last.0)
  {
    var front, last := aliases[..|aliases| - 1], aliases[|aliases| - 1];
    assert aliases == front + [last];
    forall a | a in front ensures a.0 != last.0 && a.1 != last.0 {
      var i :| 0 <= i < |front| && front[i] == a;
      assert aliases[i] == a && a in aliases && last in aliases;
    }
    assert forall a | a in front :: a in aliases;
    assert last in aliases;
  }

  lemma AsksMore(m: Flat, aliases: Aliases, p: Path, v: Value)
    requires AliasesOk(aliases) && aliases != []
    ensures var front, last := aliases[..|aliases| - 1], aliases[|aliases| - 1];
            Asks(m, aliases, p, v) <==> (p != last.0 && Asks(m, front, p, v)) || (p == last.1 && last.0 in m && m[last.0] == v)
  {
    Front(aliases);
    var front, last := aliases[..|aliases| - 1], aliases[|aliases| - 1];
    assert OldName(aliases, p) <==> OldName(front, p) || p == last.0 by {
      if OldName(aliases, p) { var a :| a in aliases && a.0 == p; }
      if OldName(front, p) { var a :| a in front && a.0 == p; assert a in aliases; }
      assert last in aliases;
    }
    if Asks(m, aliases, p, v) && !(p in m && !OldName(aliases, p) && m[p] == v) {
      var a :| a in aliases && a.1 == p && a.0 in m && m[a.0] == v;
    }
    if Asks(m, front, p, v) && !(p in m && !OldName(front, p) && m[p] == v) {
      var a :| a in front && a.1 == p && a.0 in m && m[a.0] == v;
      assert a in aliases;
    }
    assert last in aliases;
  }

  /** A document's old names can be read if and only if they agree with the new
      ones and each other; then exactly what was asked for is read, each old
      name as the new one, and every renamed option is reported. */
  lemma {:induction false} MigrateIff(m: Flat, aliases: Aliases)
    requires AliasesOk(aliases)
    ensures Migrate(m, aliases).Some? <==> Agreeing(m, aliases)
    ensures Migrate(m, aliases).Some? ==> ReadAs(m, aliases, Migrate(m, aliases).value)
    ensures Migrate(m, aliases).Some? ==>
              forall w :: w in Migrations(m, aliases) <==> w.Migrated? && (w.was, w.now) in aliases && w.was in m
    decreases |aliases|
  {
    if aliases == [] { return; }
    var front, last := aliases[..|aliases| - 1], aliases[|aliases| - 1];
    Front(aliases);
    MigrateIff(m, front);
    hide AliasesOk, OldName;
    if Migrate(m, front).None? {
      AgreeingFront(m, aliases);
      return;
    }
    var before := Migrate(m, front).value;
    LastStays(m, front, last, before);
    hide ReadAs;
    AgreeingMore(m, aliases, before);
    if Migrate(m, aliases).Some? { ReadMore(m, aliases, before); }
  }

  lemma AgreeingFront(m: Flat, aliases: Aliases)
    requires aliases != []
    ensures Agreeing(m, aliases) ==> Agreeing(m, aliases[..|aliases| - 1])
  {
    assert forall a | a in aliases[..|aliases| - 1] :: a in aliases;
  }

  /** The last old name has been left alone so far. */
  lemma LastStays(m: Flat, front: Aliases, last: (Path, Path), before: Flat)
    requires ReadAs(m, front, before) && !OldName(front, last.0) && forall a | a in front :: a.1 != last.0
    ensures last.0 in before <==> last.0 in m
    ensures last.0 in m ==> before[last.0] == m[last.0]
  {
    if last.0 in m { assert Asks(m, front, last.0, m[last.0]); }
    if last.0 in before { assert Asks(m, front, last.0, before[last.0]); }
  }

  lemma AgreeingMore(m: Flat, aliases: Aliases, before: Flat)
    requires AliasesOk(aliases) && aliases != []
    requires Agreeing(m, aliases[..|aliases| - 1]) && ReadAs(m, aliases[..|aliases| - 1], before)
    ensures var last := aliases[|aliases| - 1];
            Agreeing(m, aliases) <==> !(last.0 in m && last.1 in before && before[last.1] != m[last.0])
  {
    var front, last := aliases[..|aliases| - 1], aliases[|aliases| - 1];
    Front(aliases);
    if last.0 in m && last.1 in before && before[last.1] != m[last.0] {
      assert Asks(m, front, last.1, before[last.1]);
      assert last in aliases && forall a | a in front :: a in aliases;
    } else {
      forall a | a in aliases && a.0 in m && a.1 in m ensures m[a.0] == m[a.1] {
        if a == last { assert Asks(m, front, last.1, m[last.1]); }
      }
      forall a | a in front && a.0 in m && a.1 == last.1 && last.0 in m ensures m[a.0] == m[last.0] {
        assert Asks(m, front, last.1, m[a.0]);
      }
    }
  }

  lemma ReadMore(m: Flat, aliases: Aliases, before: Flat)
    requires AliasesOk(aliases) && aliases != [] && Migrate(m, aliases).Some?
    requires var front, last := aliases[..|aliases| - 1], aliases[|aliases| - 1];
             && Migrate(m, front) == Some(before) && ReadAs(m, front, before)
             && (last.0 in before <==> last.0 in m) && (last.0 in m ==> before[last.0] == m[last.0])
    ensures ReadAs(m, aliases, Migrate(m, aliases).value)
  {
    var front, last, out := aliases[..|aliases| - 1], aliases[|aliases| - 1], Migrate(m, aliases).value;
    Front(aliases);
    forall p, v ensures Asks(m, aliases, p, v) <==> p in out && out[p] == v {
      AsksMore(m, aliases, p, v);
      assert Asks(m, front, p, v) <==> p in before && before[p] == v;
    }
  }

  // --------------------------------------------------- keys and known sections

  /** The document has an entry at this path, and it is a section or not. */
  ghost predicate HasEntry(tree: Tree, path: Path, section: bool)
    decreases |path|
  {
    path != [] && exists e :: e in tree && EntryAt(e, path, section)
  }

  ghost predicate EntryAt(e: Entry, path: Path, section: bool)
    requires path != []
    decreases |path|, 0
  {
    && e.key == path[0]
    && if |path| == 1 then e.node.Section? == section else e.node.Section? && HasEntry(e.node.entries, path[1..], section)
  }

  lemma EntryInFront(tree: Tree, path: Path, section: bool)
    requires tree != []
    ensures HasEntry(tree, path, section) <==> path != [] && (EntryAt(tree[0], path, section) || HasEntry(tree[1..], path, section))
  {
    assert tree == [tree[0]] + tree[1..];
  }

  /** Every key at every depth is well formed, and every section lies on the way
      to some option, old or new. */
  ghost predicate WellKeyed(tree: Tree, prefix: Path, t: Table) {
    && (forall path, section | HasEntry(tree, path, section) :: t.keyOk(path[|path| - 1]))
    && (forall path | HasEntry(tree, path, true) :: SectionKnown(prefix + path, t))
  }

  lemma {:induction false} ReadableIff(tree: Tree, prefix: Path, t: Table)
    ensures Readable(tree, prefix, t) <==> WellKeyed(tree, prefix, t)
    decreases tree
  {
    if tree == [] { return; }
    ReadableIff(tree[1..], prefix, t);
    if tree[0].node.Section? { ReadableIff(tree[0].node.entries, prefix + [tree[0].key], t); }
    FirstIsKeyed(tree[0], prefix, t);
    WellKeyedSplits(tree, prefix, t);
  }

  /** The same of one entry and what is below it. */
  ghost predicate EntryKeyed(e: Entry, prefix: Path, t: Table) {
    && (forall path, section | path != [] && EntryAt(e, path, section) :: t.keyOk(path[|path| - 1]))
    && (forall path | path != [] && EntryAt(e, path, true) :: SectionKnown(prefix + path, t))
  }

  lemma WellKeyedSplits(tree: Tree, prefix: Path, t: Table)
    requires tree != []
    ensures WellKeyed(tree, prefix, t) <==> EntryKeyed(tree[0], prefix, t) && WellKeyed(tree[1..], prefix, t)
  {
    forall path, section ensures HasEntry(tree, path, section)
                                 <==> path != [] && (EntryAt(tree[0], path, section) || HasEntry(tree[1..], path, section))
    {
      EntryInFront(tree, path, section);
    }
    hide HasEntry, EntryAt, SectionKnown;
  }

  lemma FirstIsKeyed(e: Entry, prefix: Path, t: Table)
    ensures EntryKeyed(e, prefix, t) <==>
              && t.keyOk(e.key)
              && (e.node.Section? ==> SectionKnown(prefix + [e.key], t) && WellKeyed(e.node.entries, prefix + [e.key], t))
  {
    hide SectionKnown;
    assert EntryAt(e, [e.key], e.node.Section?);
    forall path, section | path != [] && |path| > 1 && EntryAt(e, path, section)
      ensures HasEntry(e.node.entries, path[1..], section) && path[1..][|path| - 2] == path[|path| - 1]
      ensures prefix + [e.key] + path[1..] == prefix + path
    {
    }
    forall path, section | e.node.Section? && HasEntry(e.node.entries, path, section)
      ensures EntryAt(e, [e.key] + path, section) && ([e.key] + path)[|path|] == path[|path| - 1]
      ensures prefix + [e.key] + path == prefix + ([e.key] + path)
    {
      assert ([e.key] + path)[1..] == path;
    }
    forall path, section | |path| == 1 && EntryAt(e, path, section) ensures path == [e.key] {}
  }

  // ------------------------------------------------- what a document is good for

  /** Every option is known, or dead, under its own name or an old one, and has
      a value it accepts. */
  ghost predicate OptionsOk(m: Flat, t: Table) {
    && (forall p | p in m && !OldName(t.aliases, p) :: p in t.deprecated || (p in Fields(t) && t.valid(p, m[p])))
    && (forall a | a in t.aliases && a.0 in m :: t.valid(a.1, m[a.0]))
  }

  /** A document is accepted if and only if its keys are well formed and its
      sections known, its old names agree, and every option is known and valid;
      then exactly what it asks for counts. */
  lemma GivenIff(layer: Layer, t: Table)
    requires TableOk(t) && AliasesOk(t.aliases)
    ensures var m := Flatten(layer.values);
            && (Given(layer, t).Some? <==> WellKeyed(layer.values, [], t) && Agreeing(m, t.aliases) && OptionsOk(m, t))
            && (Given(layer, t).Some? ==> ReadAs(m, t.aliases, Given(layer, t).value))
  {
    var m := Flatten(layer.values);
    MigrateIff(m, t.aliases);
    ReadableIff(layer.values, [], t);
    if Migrate(m, t.aliases).Some? { AcceptableIff(m, Migrate(m, t.aliases).value, t); }
    hide Readable, WellKeyed, Migrate, Acceptable, OptionsOk, ReadAs, Agreeing, TableOk;
  }

  lemma AcceptableIff(m: Flat, out: Flat, t: Table)
    requires TableOk(t) && AliasesOk(t.aliases) && ReadAs(m, t.aliases, out)
    ensures Acceptable(out, t) <==> OptionsOk(m, t)
  {
    hide PrefixFree;
    forall p | p in m && !OldName(t.aliases, p) ensures p in out && out[p] == m[p] { assert Asks(m, t.aliases, p, m[p]); }
    forall a | a in t.aliases && a.0 in m ensures a.1 in out && out[a.1] == m[a.0] { assert Asks(m, t.aliases, a.1, m[a.0]); }
    forall p | p in out && OptionsOk(m, t) ensures p in t.deprecated || (p in Fields(t) && t.valid(p, out[p])) {
      assert Asks(m, t.aliases, p, out[p]);
    }
  }

  /** A configuration results if and only if both documents are accepted and the
      outcome keeps the rules between options. */
  lemma ResolvesIff(values: Layer, overrides: Layer, t: Table)
    requires TableOk(t)
    ensures Resolve(values, overrides, t).Some? <==>
              && Given(values, t).Some? && Given(overrides, t).Some?
              && t.profilesOk(map p | p in t.defaults ::
                   if p in Given(overrides, t).value then Given(overrides, t).value[p]
                   else if p in Given(values, t).value then Given(values, t).value[p] else t.defaults[p])
  {
    OrderIsUsable(t);
    hide Given, PrefixFree, Nest;
    if Given(values, t).Some? && Given(overrides, t).Some? {
      var a, b := Given(values, t).value, Given(overrides, t).value;
      assert Over(Over(t.defaults, a), b) ==
          map p | p in t.defaults :: if p in b then b[p] else if p in a then a[p] else t.defaults[p];
    }
  }

  /** The option ends up with the value, filed under this source. */
  predicate Holds(c: Config, p: Path, v: Value, source: string) {
    p in Flatten(c.values) && Flatten(c.values)[p] == v && p in c.sources && c.sources[p] == source
  }

  /** An option asked for in the overrides, under its own name or an old one, has
      the value asked for there; otherwise the one asked for in the document;
      otherwise its default.  It is filed under the layer it came from. */
  lemma AskedIsHeld(values: Layer, overrides: Layer, t: Table, p: Path)
    requires TableOk(t) && AliasesOk(t.aliases) && p in t.order && Resolve(values, overrides, t).Some?
    ensures var c := Resolve(values, overrides, t).value;
            var a, b := Flatten(values.values), Flatten(overrides.values);
            && (forall v | Asks(b, t.aliases, p, v) :: Holds(c, p, v, LabelOf(overrides, p)))
            && (forall v | Asks(a, t.aliases, p, v) && !(exists w :: Asks(b, t.aliases, p, w)) :: Holds(c, p, v, LabelOf(values, p)))
            && ((forall v :: !Asks(a, t.aliases, p, v) && !Asks(b, t.aliases, p, v)) ==> Holds(c, p, t.defaults[p], "built-in default"))
  {
    hide TableOk, AliasesOk, Asks, Given, Flatten, LabelOf, Resolve;
    BothGiven(values, overrides, t);
    WinnerTakesOption(values, overrides, t, p);
    AskedInLayer(values, t, p);
    AskedInLayer(overrides, t, p);
    var x, y := Given(values, t).value, Given(overrides, t).value;
    assert p in y ==> Asks(Flatten(overrides.values), t.aliases, p, y[p]);
    assert p in x ==> Asks(Flatten(values.values), t.aliases, p, x[p]);
  }

  lemma BothGiven(values: Layer, overrides: Layer, t: Table)
    requires TableOk(t) && Resolve(values, overrides, t).Some?
    ensures Given(values, t).Some? && Given(overrides, t).Some?
  {
    OrderIsUsable(t);
    hide Given, Nest, PrefixFree;
  }

  lemma AskedInLayer(layer: Layer, t: Table, p: Path)
    requires TableOk(t) && AliasesOk(t.aliases) && Given(layer, t).Some?
    ensures forall v :: Asks(Flatten(layer.values), t.aliases, p, v) <==> p in Given(layer, t).value && Given(layer, t).value[p] == v
  {
    GivenIff(layer, t);
    hide TableOk, AliasesOk, Asks, Given, Flatten, Agreeing, OptionsOk, WellKeyed;
  }

  /** The warnings are those of earlier resolutions, one for each old name given,
      and one for each dead option given. */
  lemma WarningsIff(layer: Layer, t: Table)
    requires TableOk(t) && AliasesOk(t.aliases) && Given(layer, t).Some?
    ensures var m := Flatten(layer.values);
            forall w :: w in WarningsOf(layer, t) <==>
              || (layer.prior.Some? && w in layer.prior.value.warnings)
              || (w.Migrated? && (w.was, w.now) in t.aliases && w.was in m)
              || (w.Dead? && w.path in t.deprecated && w.path in m && !OldName(t.aliases, w.path))
  {
    var m := Flatten(layer.values);
    MigrateIff(m, t.aliases);
    var out := Migrate(m, t.aliases).value;
    forall p | p in t.deprecated ensures p in out <==> p in m && !OldName(t.aliases, p) { DeadStays(m, out, t, p); }
    hide Migrate, Migrations, ReadAs, Agreeing, AliasesOk, TableOk, Readable, Acceptable, OldName;
  }

  lemma DeadStays(m: Flat, out: Flat, t: Table, p: Path)
    requires TableOk(t) && ReadAs(m, t.aliases, out) && p in t.deprecated
    ensures p in out <==> p in m && !OldName(t.aliases, p)
  {
    hide PrefixFree;
    if p in m && !OldName(t.aliases, p) { assert Asks(m, t.aliases, p, m[p]); }
    if p in out { assert Asks(m, t.aliases, p, out[p]); }
  }
}
