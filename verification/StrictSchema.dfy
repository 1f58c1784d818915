/** The transport schema sent to the model: every object schema is closed and
    all of its properties become required. */
module StrictSchema {
  import opened OperationStore

  datatype Json = Null | Bool(b: bool) | Num(n: int) | Str(s: string) | Arr(xs: seq<Json>) | Obj(ms: seq<Member>)

  datatype Member = Member(key: string, value: Json)

  function Get(ms: seq<Member>, key: string): Option<Json> {
    if ms == [] then None else if ms[0].key == key then Some(ms[0].value) else Get(ms[1..], key)
  }

  /** Overwrite in place, or append. */
  function Set(ms: seq<Member>, key: string, value: Json): seq<Member> {
    if ms == [] then [Member(key, value)]
    else if ms[0].key == key then [Member(key, value)] + ms[1..]
    else [ms[0]] + Set(ms[1..], key, value)
  }

  function Keys(ms: seq<Member>): seq<Json> {
    if ms == [] then [] else [Str(ms[0].key)] + Keys(ms[1..])
  }

  predicate IsObject(ms: seq<Member>) {
    var t := Get(ms, "type");
    t == Some(Str("object")) || (t.Some? && t.value.Arr? && Str("object") in t.value.xs)
  }

  predicate Overwritten(key: string) { key == "additionalProperties" || key == "required" }

  // -------------------------------------------------------------- make_strict

  /** None: an object schema declares no properties, and nothing is sent. */
  function Strict(j: Json): Option<Json>
    decreases j, 1
  {
    match j
    case Arr(xs) => var ys := StrictAll(xs); if ys.None? then None else Some(Arr(ys.value))
    case Obj(ms) =>
      var closed := IsObject(ms);
      var properties := Get(ms, "properties");
      if closed && !(properties.Some? && properties.value.Obj?) then None
      else
        var inner := StrictMembers(ms, closed);
        if inner.None? then None
        else if !closed then Some(Obj(inner.value))
        else Some(Obj(Close(inner.value, properties.value.ms)))
    case _ => Some(j)
  }

  function Close(ms: seq<Member>, properties: seq<Member>): seq<Member> {
    Set(Set(ms, "additionalProperties", Bool(false)), "required", Arr(Keys(properties)))
  }

  function StrictAll(xs: seq<Json>): Option<seq<Json>>
    decreases xs, 0
  {
    if xs == [] then Some([]) else
    var first, rest := Strict(xs[0]), StrictAll(xs[1..]);
    if first.None? || rest.None? then None else Some([first.value] + rest.value)
  }

  /** What a closed object overwrites is not looked at any more. */
  function StrictMembers(ms: seq<Member>, closed: bool): Option<seq<Member>>
    decreases ms, 0
  {
    if ms == [] then Some([]) else
    var m, rest := ms[0], StrictMembers(ms[1..], closed);
    var value := if closed && Overwritten(m.key) then Some(m.value) else Strict(m.value);
    if value.None? || rest.None? then None else Some([Member(m.key, value.value)] + rest.value)
  }

  /** The walk as it runs. */
  method MakeStrict(j: Json) returns (r: Option<Json>)
    ensures r == Strict(j)
    decreases j
  {
    if j.Arr? {
      var ys: seq<Json> := [];
      assert j.xs[0..] == j.xs;
      PrefixedNothing(StrictAll(j.xs));
      for i := 0 to |j.xs|
        invariant Prefixed(ys, StrictAll(j.xs[i..])) == StrictAll(j.xs)
      {
        assert j.xs[i..][0] == j.xs[i] && j.xs[i..][1..] == j.xs[i + 1..];
        var y := MakeStrict(j.xs[i]);
        if y.None? { return None; }
        PrefixedSnoc(ys, y.value, StrictAll(j.xs[i + 1..]));
        ys := ys + [y.value];
      }
      assert j.xs[|j.xs|..] == [] && ys + [] == ys;
      return Some(Arr(ys));
    }
    if !j.Obj? { return Some(j); }
    var closed, properties := IsObject(j.ms), Get(j.ms, "properties");
    if closed && !(properties.Some? && properties.value.Obj?) { return None; }
    var ns: seq<Member> := [];
    assert j.ms[0..] == j.ms;
    PrefixedNothing(StrictMembers(j.ms, closed));
    for i := 0 to |j.ms|
      invariant Prefixed(ns, StrictMembers(j.ms[i..], closed)) == StrictMembers(j.ms, closed)
    {
      assert j.ms[i..][0] == j.ms[i] && j.ms[i..][1..] == j.ms[i + 1..];
      var m := j.ms[i];
      var value := Some(m.value);
      if !closed || !Overwritten(m.key) { value := MakeStrict(m.value); }
      if value.None? { return None; }
      PrefixedSnoc(ns, Member(m.key, value.value), StrictMembers(j.ms[i + 1..], closed));
      ns := ns + [Member(m.key, value.value)];
    }
    assert j.ms[|j.ms|..] == [] && ns + [] == ns;
    return Some(Obj(if closed then Close(ns, properties.value.ms) else ns));
  }

  function Prefixed<T>(done: seq<T>, rest: Option<seq<T>>): Option<seq<T>> {
    if rest.None? then None else Some(done + rest.value)
  }

  lemma PrefixedNothing<T>(rest: Option<seq<T>>)
    ensures Prefixed([], rest) == rest
  {
    if rest.Some? { assert [] + rest.value == rest.value; }
  }

  lemma PrefixedSnoc<T>(done: seq<T>, x: T, rest: Option<seq<T>>)
    ensures Prefixed(done + [x], rest) == if rest.None? then None else Some(done + ([x] + rest.value))
  {
    if rest.Some? { assert done + [x] + rest.value == done + ([x] + rest.value); }
  }

  // ---------------------------------------------------------------- idempotence

  lemma {:induction false} GetSet(ms: seq<Member>, key: string, value: Json, other: string)
    ensures Get(Set(ms, key, value), other) == if other == key then Some(value) else Get(ms, other)
  {
    if ms != [] && ms[0].key != key { GetSet(ms[1..], key, value, other); }
  }

  lemma {:induction false} GetStrict(ms: seq<Member>, closed: bool, key: string)
    requires StrictMembers(ms, closed).Some?
    ensures Get(ms, key).Some? <==> Get(StrictMembers(ms, closed).value, key).Some?
    ensures Get(ms, key).Some? ==>
              Some(Get(StrictMembers(ms, closed).value, key).value)
              == if closed && Overwritten(key) then Get(ms, key) else Strict(Get(ms, key).value)
  {
    if ms != [] && ms[0].key != key { GetStrict(ms[1..], closed, key); }
  }

  lemma {:induction false} KeysStay(ms: seq<Member>, closed: bool)
    requires StrictMembers(ms, closed).Some?
    ensures Keys(StrictMembers(ms, closed).value) == Keys(ms)
  {
    if ms != [] { KeysStay(ms[1..], closed); }
  }

  lemma {:induction false} SetAgain(ms: seq<Member>, key: string, value: Json)
    requires Get(ms, key) == Some(value)
    ensures Set(ms, key, value) == ms
  {
    if ms[0].key != key { SetAgain(ms[1..], key, value); }
  }

  lemma {:induction false} StrictAllAt(xs: seq<Json>, i: nat)
    requires StrictAll(xs).Some?
    ensures |StrictAll(xs).value| == |xs| && (i < |xs| ==> Strict(xs[i]) == Some(StrictAll(xs).value[i]))
  {
    if xs != [] && i > 0 { StrictAllAt(xs[1..], i - 1); } else if xs != [] { StrictAllAt(xs[1..], 0); }
  }

  lemma {:induction false} StrictMembersAt(ms: seq<Member>, closed: bool, i: nat)
    requires StrictMembers(ms, closed).Some?
    ensures |StrictMembers(ms, closed).value| == |ms|
    ensures i < |ms| ==> StrictMembers(ms, closed).value[i].key == ms[i].key
    ensures i < |ms| ==> Some(StrictMembers(ms, closed).value[i].value)
                         == (if closed && Overwritten(ms[i].key) then Some(ms[i].value) else Strict(ms[i].value))
  {
    if ms != [] && i > 0 { StrictMembersAt(ms[1..], closed, i - 1); } else if ms != [] { StrictMembersAt(ms[1..], closed, 0); }
  }

  /** A schema stays an object schema, and no other becomes one. */
  lemma TypeStays(ms: seq<Member>, closed: bool)
    requires StrictMembers(ms, closed).Some?
    ensures IsObject(StrictMembers(ms, closed).value) == IsObject(ms)
  {
    GetStrict(ms, closed, "type");
    var t := Get(ms, "type");
    if t.Some? && t.value.Arr? {
      var xs, ys := t.value.xs, StrictAll(t.value.xs).value;
      StrictAllAt(xs, 0);
      if Str("object") in xs {
        var i :| 0 <= i < |xs| && xs[i] == Str("object");
        StrictAllAt(xs, i);
        assert ys[i] == Str("object");
      }
      if Str("object") in ys {
        var i :| 0 <= i < |ys| && ys[i] == Str("object");
        StrictAllAt(xs, i);
        assert xs[i] == Str("object");
      }
    }
  }

  predicate Has(ms: seq<Member>, key: string) { Get(ms, key).Some? }

  predicate ClosedAlready(ms: seq<Member>) { Has(ms, "additionalProperties") && Has(ms, "required") }

  /** Of all objects the walk visits as closed: a property table that itself
      looks like an object schema has both members the walk would add to it. */
  predicate Stable(j: Json)
    decreases j
  {
    match j
    case Arr(xs) => forall i | 0 <= i < |xs| :: Stable(xs[i])
    case Obj(ms) =>
      && (forall i | 0 <= i < |ms| && !(IsObject(ms) && Overwritten(ms[i].key)) :: Stable(ms[i].value))
      && (IsObject(ms) ==> TableStable(ms))
    case _ => true
  }

  predicate TableStable(ms: seq<Member>) {
    var table := Get(ms, "properties");
    table.Some? && table.value.Obj? && IsObject(table.value.ms) ==> ClosedAlready(table.value.ms)
  }

  // Setting members

  lemma {:induction false} SetTwice(ms: seq<Member>, key: string, v: Json, w: Json)
    ensures Set(Set(ms, key, v), key, w) == Set(ms, key, w)
  {
    if ms == [] {
      assert Set(ms, key, v)[1..] == [];
    } else if ms[0].key != key {
      SetTwice(ms[1..], key, v, w);
      assert Set(ms, key, v)[1..] == Set(ms[1..], key, v);
    } else {
      assert Set(ms, key, v)[1..] == ms[1..];
    }
  }

  /** Setting a present member first or later is the same. */
  lemma {:induction false} SetSwap(ms: seq<Member>, key: string, v: Json, other: string, w: Json)
    requires key != other && Has(ms, key)
    ensures Set(Set(ms, other, w), key, v) == Set(Set(ms, key, v), other, w)
  {
    var one, two := Set(ms, other, w), Set(ms, key, v);
    if ms[0].key == key {
      assert two[1..] == ms[1..] && one[1..] == Set(ms[1..], other, w);
    } else if ms[0].key == other {
      assert one[1..] == ms[1..] && two[1..] == Set(ms[1..], key, v);
    } else {
      SetSwap(ms[1..], key, v, other, w);
      assert one[1..] == Set(ms[1..], other, w) && two[1..] == Set(ms[1..], key, v);
    }
  }

  /** Closing twice keeps the second list of requirements. */
  lemma CloseTwice(ms: seq<Member>, ps: seq<Member>, qs: seq<Member>)
    ensures Close(Close(ms, ps), qs) == Close(ms, qs)
  {
    var once, no := Set(ms, "additionalProperties", Bool(false)), Bool(false);
    GetSet(ms, "additionalProperties", no, "additionalProperties");
    SetSwap(once, "additionalProperties", no, "required", Arr(Keys(ps)));
    SetTwice(ms, "additionalProperties", no, no);
    SetTwice(once, "required", Arr(Keys(ps)), Arr(Keys(qs)));
  }

  lemma {:induction false} SetSize(ms: seq<Member>, key: string, v: Json)
    ensures |Set(ms, key, v)| == |ms| + if Has(ms, key) then 0 else 1
    ensures Has(ms, key) ==> Keys(Set(ms, key, v)) == Keys(ms)
  {
    if ms != [] {
      assert Set(ms, key, v)[1..] == if ms[0].key == key then ms[1..] else Set(ms[1..], key, v);
      if ms[0].key != key { SetSize(ms[1..], key, v); }
    }
  }

  lemma {:induction false} OneKeyEach(ms: seq<Member>)
    ensures |Keys(ms)| == |ms|
  {
    if ms != [] { OneKeyEach(ms[1..]); }
  }

  /** Same keys, and the same value wherever the key is overwritten. */
  predicate AlikeApart(ms: seq<Member>, ns: seq<Member>) {
    |ms| == |ns| && forall i | 0 <= i < |ms| :: ms[i].key == ns[i].key && (Overwritten(ms[i].key) ==> ms[i] == ns[i])
  }

  lemma {:induction false} SetTellsApart(ms: seq<Member>, ns: seq<Member>, key: string, v: Json)
    requires AlikeApart(ms, ns) && Overwritten(key)
    ensures AlikeApart(Set(ms, key, v), Set(ns, key, v))
    ensures Set(ms, key, v) == Set(ns, key, v) ==> ms == ns
  {
    if ms == [] { return; }
    var one, two := Set(ms, key, v), Set(ns, key, v);
    if ms[0].key == key {
      assert one[1..] == ms[1..] && two[1..] == ns[1..];
      assert one == two ==> ms == [ms[0]] + ms[1..] && ns == [ns[0]] + ns[1..];
    } else {
      SetTellsApart(ms[1..], ns[1..], key, v);
      assert one[1..] == Set(ms[1..], key, v) && two[1..] == Set(ns[1..], key, v);
      assert one[0] == ms[0] && two[0] == ns[0];
      assert one == two ==> ms == [ms[0]] + ms[1..] && ns == [ns[0]] + ns[1..];
    }
  }

  lemma CloseTellsApart(ms: seq<Member>, ns: seq<Member>, ps: seq<Member>)
    requires AlikeApart(ms, ns)
    ensures Close(ms, ps) == Close(ns, ps) <==> ms == ns
  {
    SetTellsApart(ms, ns, "additionalProperties", Bool(false));
    SetTellsApart(Set(ms, "additionalProperties", Bool(false)), Set(ns, "additionalProperties", Bool(false)), "required", Arr(Keys(ps)));
  }

  lemma {:induction false} StringsAreInert(ms: seq<Member>)
    ensures StrictAll(Keys(ms)) == Some(Keys(ms))
  {
    if ms != [] { StringsAreInert(ms[1..]); }
  }

  /** The walk over a closed object does not look at what it has set. */
  lemma {:induction false} SettingCommutes(ms: seq<Member>, key: string, value: Json)
    requires Overwritten(key)
    ensures var inner := StrictMembers(ms, true);
            StrictMembers(Set(ms, key, value), true) == if inner.None? then None else Some(Set(inner.value, key, value))
  {
    var after := Set(ms, key, value);
    if ms == [] {
      assert after[1..] == [] && [Member(key, value)] + [] == after;
    } else if ms[0].key == key {
      assert after[1..] == ms[1..];
      var rest := StrictMembers(ms[1..], true);
      if rest.Some? { assert StrictMembers(ms, true).value[1..] == rest.value; }
    } else {
      SettingCommutes(ms[1..], key, value);
      assert after[1..] == Set(ms[1..], key, value);
      var inner := StrictMembers(ms, true);
      if inner.Some? { assert inner.value[1..] == StrictMembers(ms[1..], true).value && inner.value[0].key == ms[0].key; }
    }
  }

  lemma ClosingCommutes(ms: seq<Member>, ps: seq<Member>)
    ensures var inner := StrictMembers(ms, true);
            StrictMembers(Close(ms, ps), true) == if inner.None? then None else Some(Close(inner.value, ps))
  {
    SettingCommutes(ms, "additionalProperties", Bool(false));
    SettingCommutes(Set(ms, "additionalProperties", Bool(false)), "required", Arr(Keys(ps)));
  }

  lemma CloseKeeps(ms: seq<Member>, ps: seq<Member>, key: string)
    ensures !Overwritten(key) ==> Get(Close(ms, ps), key) == Get(ms, key)
    ensures Get(Close(ms, ps), "required") == Some(Arr(Keys(ps)))
    ensures Get(Close(ms, ps), "additionalProperties") == Some(Bool(false))
  {
    var once := Set(ms, "additionalProperties", Bool(false));
    GetSet(ms, "additionalProperties", Bool(false), key);
    GetSet(once, "required", Arr(Keys(ps)), key);
    GetSet(ms, "additionalProperties", Bool(false), "additionalProperties");
    GetSet(once, "required", Arr(Keys(ps)), "additionalProperties");
    GetSet(once, "required", Arr(Keys(ps)), "required");
  }

  /** The table of a closed object keeps its keys unless it is closed itself. */
  lemma TableKeysIff(ps: seq<Member>)
    requires Strict(Obj(ps)).Some?
    ensures Keys(Strict(Obj(ps)).value.ms) == Keys(ps) <==> (IsObject(ps) ==> ClosedAlready(ps))
  {
    var closed := IsObject(ps);
    KeysStay(ps, closed);
    if closed {
      var inner, no := StrictMembers(ps, true).value, Bool(false);
      var table := Arr(Keys(Get(ps, "properties").value.ms));
      var once := Set(inner, "additionalProperties", no);
      GetStrict(ps, true, "additionalProperties");
      GetStrict(ps, true, "required");
      SetSize(inner, "additionalProperties", no);
      SetSize(once, "required", table);
      GetSet(inner, "additionalProperties", no, "required");
      OneKeyEach(ps);
      OneKeyEach(inner);
      OneKeyEach(Set(once, "required", table));
    }
  }

  /** Strengthening an already strict schema changes nothing if and only if no
      property table that is taken for an object schema can grow. */
  lemma {:induction false} StrictIsIdempotentIff(j: Json)
    requires Strict(j).Some?
    ensures Strict(Strict(j).value) == Strict(j) <==> Stable(j)
    decreases j, 1
  {
    match j
    case Arr(xs) => AllIdempotentIff(xs);
    case Obj(ms) =>
      MembersIdempotentIff(ms, IsObject(ms));
      TypeStays(ms, IsObject(ms));
      if IsObject(ms) { ClosedIdempotentIff(ms); }
    case _ =>
  }

  lemma ClosedIdempotentIff(ms: seq<Member>)
    requires IsObject(ms) && Strict(Obj(ms)).Some? && IsObject(StrictMembers(ms, true).value)
    ensures var inner := StrictMembers(ms, true).value;
            Strict(Strict(Obj(ms)).value) == Strict(Obj(ms)) <==> StrictMembers(inner, true) == Some(inner) && TableStable(ms)
  {
    var inner, ps := StrictMembers(ms, true).value, Get(ms, "properties").value.ms;
    GetStrict(ms, true, "properties");
    TableKeysIff(ps);
    hide Strict, Stable;
    SecondPass(ms, inner, ps);
  }

  /** The second pass over a closed object, part by part. */
  lemma SecondPass(ms: seq<Member>, inner: seq<Member>, ps: seq<Member>)
    requires IsObject(inner) && Strict(Obj(ps)).Some? && Get(inner, "properties") == Some(Strict(Obj(ps)).value)
    ensures Strict(Obj(Close(inner, ps))) == Some(Obj(Close(inner, ps)))
            <==> StrictMembers(inner, true) == Some(inner) && Keys(Strict(Obj(ps)).value.ms) == Keys(ps)
  {
    var once, qs := Close(inner, ps), Strict(Obj(ps)).value.ms;
    CloseKeeps(inner, ps, "type");
    CloseKeeps(inner, ps, "properties");
    ClosingCommutes(inner, ps);
    assert Strict(Obj(once)) == (var again := StrictMembers(once, true); if again.None? then None else Some(Obj(Close(again.value, qs))));
    hide Strict;
    if StrictMembers(inner, true).Some? {
      var mid := StrictMembers(inner, true).value;
      CloseTwice(mid, ps, qs);
      assert AlikeApart(mid, inner) by {
        forall i | 0 <= i < |inner| ensures |mid| == |inner| && mid[i].key == inner[i].key && (Overwritten(mid[i].key) ==> mid[i] == inner[i]) {
          StrictMembersAt(inner, true, i);
        }
        StrictMembersAt(inner, true, |inner|);
      }
      CloseTellsApart(mid, inner, ps);
      CloseKeeps(mid, qs, "type");
      CloseKeeps(inner, ps, "type");
    }
  }

  lemma {:induction false} AllIdempotentIff(xs: seq<Json>)
    requires StrictAll(xs).Some?
    ensures StrictAll(StrictAll(xs).value) == StrictAll(xs) <==> forall i | 0 <= i < |xs| :: Stable(xs[i])
    decreases xs, 0
  {
    if xs != [] {
      StrictIsIdempotentIff(xs[0]);
      AllIdempotentIff(xs[1..]);
      assert (forall i | 0 <= i < |xs| :: Stable(xs[i])) <==> Stable(xs[0]) && forall i | 0 <= i < |xs[1..]| :: Stable(xs[1..][i]);
      var ys := StrictAll(xs).value;
      assert ys[1..] == StrictAll(xs[1..]).value && ys == [ys[0]] + ys[1..];
    }
  }

  predicate MembersStable(ms: seq<Member>, closed: bool) {
    forall i | 0 <= i < |ms| && !(closed && Overwritten(ms[i].key)) :: Stable(ms[i].value)
  }

  lemma {:induction false} MembersIdempotentIff(ms: seq<Member>, closed: bool)
    requires StrictMembers(ms, closed).Some?
    ensures StrictMembers(StrictMembers(ms, closed).value, closed) == StrictMembers(ms, closed) <==> MembersStable(ms, closed)
    decreases ms, 0
  {
    if ms != [] {
      if !(closed && Overwritten(ms[0].key)) { StrictIsIdempotentIff(ms[0].value); }
      MembersIdempotentIff(ms[1..], closed);
      assert MembersStable(ms, closed) <==>
             ((closed && Overwritten(ms[0].key)) || Stable(ms[0].value)) && MembersStable(ms[1..], closed) by {
        assert forall i | 0 < i < |ms| :: ms[i] == ms[1..][i - 1];
      }
      var ns := StrictMembers(ms, closed).value;
      assert ns[1..] == StrictMembers(ms[1..], closed).value && ns == [ns[0]] + ns[1..];
    }
  }

  // ------------------------------------------------------- what is let through

  predicate Strings(j: Json) { j.Arr? && forall i | 0 <= i < |j.xs| :: j.xs[i].Str? }

  /** The part of the draft-07 meta-schema that fixes where schemas stand; the
      keywords it does not name here may hold anything. */
  predicate IsSchema(j: Json)
    decreases j, 0
  {
    match j
    case Bool(_) => true
    case Obj(ms) => forall i | 0 <= i < |ms| :: SchemaKeyword(ms[i].key, ms[i].value)
    case _ => false
  }

  predicate SchemaKeyword(key: string, k: Json)
    decreases k, 1
  {
    if key == "type" then k.Str? || Strings(k)
    else if key == "required" then Strings(k)
    else if key == "enum" then k.Arr?
    else if key in {"properties", "patternProperties", "definitions"} then k.Obj? && forall i | 0 <= i < |k.ms| :: IsSchema(k.ms[i].value)
    else if key in {"allOf", "anyOf", "oneOf"} then k.Arr? && forall i | 0 <= i < |k.xs| :: IsSchema(k.xs[i])
    else if key == "items" then IsSchema(k) || (k.Arr? && forall i | 0 <= i < |k.xs| :: IsSchema(k.xs[i]))
    else if key in {"not", "additionalProperties", "additionalItems", "contains", "propertyNames", "if", "then", "else"} then IsSchema(k)
    else true
  }

  /** Where a schema stands, its property table is never misread: no property
      has a string or an array for its schema. */
  lemma TablesOfSchemasAreStable(ms: seq<Member>)
    requires IsSchema(Obj(ms))
    ensures TableStable(ms)
  {
    if Has(ms, "properties") {
      var i := GetIsMember(ms, "properties");
      assert SchemaKeyword(ms[i].key, ms[i].value);
      var ps := ms[i].value.ms;
      if Has(ps, "type") {
        var k := GetIsMember(ps, "type");
        assert IsSchema(ps[k].value);
      }
    }
  }

  lemma {:induction false} GetIsMember(ms: seq<Member>, key: string) returns (i: nat)
    requires Get(ms, key).Some?
    ensures i < |ms| && ms[i].key == key && ms[i].value == Get(ms, key).value
  {
    if ms[0].key == key { return 0; }
    i := GetIsMember(ms[1..], key);
    i := i + 1;
  }

  lemma StrictPair(a: Member, b: Member, closed: bool)
    requires !Overwritten(a.key) && !Overwritten(b.key) && Strict(a.value).Some? && Strict(b.value).Some?
    ensures StrictMembers([a, b], closed) == Some([Member(a.key, Strict(a.value).value), Member(b.key, Strict(b.value).value)])
  {
    var x, y := Member(a.key, Strict(a.value).value), Member(b.key, Strict(b.value).value);
    assert [a, b][1..] == [b] && [b][1..] == [] && StrictMembers([], closed) == Some([]);
    assert [y] + [] == [y] && StrictMembers([b], closed) == Some([y]);
    assert [x] + [y] == [x, y];
  }

  /** A closed schema with the given properties. */
  function ObjectOf(properties: Json): Json { Obj([Member("type", Str("object")), Member("properties", properties)]) }

  lemma StrictObject(ps: seq<Member>)
    requires Strict(Obj(ps)).Some?
    ensures Strict(ObjectOf(Obj(ps))) == Some(Obj(Close([Member("type", Str("object")), Member("properties", Strict(Obj(ps)).value)], ps)))
    ensures Get(Strict(ObjectOf(Obj(ps))).value.ms, "required") == Some(Arr(Keys(ps)))
  {
    var t, p := Member("type", Str("object")), Member("properties", Obj(ps));
    StrictPair(t, p, true);
    assert Get([t, p], "type") == Some(Str("object")) && [t, p][1..] == [p] && Get([p], "properties") == Some(Obj(ps));
    assert Get([t, p], "properties") == Some(Obj(ps));
    var inner := [t, Member("properties", Strict(Obj(ps)).value)];
    GetSet(Set(inner, "additionalProperties", Bool(false)), "required", Arr(Keys(ps)), "required");
  }

  lemma StrictOne(m: Member, closed: bool)
    requires !Overwritten(m.key) && Strict(m.value).Some?
    ensures StrictMembers([m], closed) == Some([Member(m.key, Strict(m.value).value)])
  {
    var t := Member(m.key, Strict(m.value).value);
    assert [m][1..] == [] && StrictMembers([], closed) == Some([]) && [t] + [] == [t];
  }

  /** A value like a closed schema whose property table looks like one too. */
  const MISREAD := ObjectOf(ObjectOf(Obj([])))

  lemma MisreadIsUnstable()
    ensures Strict(MISREAD).Some? && !Stable(MISREAD)
  {
    var table := ObjectOf(Obj([]));
    StrictObject([]);
    StrictObject(table.ms);
    assert Get(MISREAD.ms, "properties") == Some(table) by { assert MISREAD.ms[1..][0].key == "properties"; }
    assert Get(table.ms, "additionalProperties").None? by { assert table.ms[1..][1..] == []; }
    assert !TableStable(MISREAD.ms);
  }

  /** Where data stands it can be: as an enumerated value it passes the draft-07
      check, and the second pass lists the two members the first one added. */
  lemma MisreadDataGrows() returns (j: Json)
    ensures IsSchema(j) && Strict(j).Some? && Strict(Strict(j).value) != Strict(j)
  {
    MisreadIsUnstable();
    var data := MISREAD;
    hide MISREAD;
    j := Obj([Member("enum", Arr([data]))]);
    assert [data][1..] == [] && StrictAll([]) == Some([]) && StrictAll([data]).Some?;
    StrictOne(Member("enum", Arr([data])), false);
    assert Get(j.ms, "type").None? by { assert j.ms[1..] == []; }
    assert !Stable(Arr([data])) by { assert [data][0] == data; }
    assert !Stable(j) by { assert j.ms[0].value == Arr([data]); }
    StrictIsIdempotentIff(j);
  }

  lemma {:induction false} SetAppends(ms: seq<Member>, key: string, value: Json)
    requires Get(ms, key).None?
    ensures Set(ms, key, value) == ms + [Member(key, value)]
  {
    if ms != [] { SetAppends(ms[1..], key, value); }
  }

}
