/** Which values a schema accepts, and that the strict schema accepts no value
    the local schema would refuse. */
module SchemaMeaning {
  import opened OperationStore
  import opened StrictSchema

  /** The meaning of every keyword not modelled here (lengths, patterns, bounds). */
  type Rule = (string, Json, Json) -> bool

  predicate HasType(v: Json, t: Json) {
    match t
    case Str(name) =>
      (match v
       case Null => name == "null"
       case Bool(_) => name == "boolean"
       case Num(_) => name == "integer" || name == "number"
       case Str(_) => name == "string"
       case Arr(_) => name == "array"
       case Obj(_) => name == "object")
    case _ => false
  }

  predicate TypeOk(k: Json, v: Json) {
    if k.Arr? then exists i :: 0 <= i < |k.xs| && HasType(v, k.xs[i]) else HasType(v, k)
  }

  /** What is taken for an object schema is what names the type of an object. */
  lemma ObjectSchemaIff(ms: seq<Member>, fields: seq<Member>)
    ensures IsObject(ms) <==> Get(ms, "type").Some? && TypeOk(Get(ms, "type").value, Obj(fields))
  {
    var k := Get(ms, "type");
    if k.Some? && k.value.Arr? {
      assert forall i | 0 <= i < |k.value.xs| :: HasType(Obj(fields), k.value.xs[i]) <==> k.value.xs[i] == Str("object");
    }
  }

  predicate RequiredOk(k: Json, v: Json) {
    k.Arr? && v.Obj? ==> forall i | 0 <= i < |k.xs| && k.xs[i].Str? :: Get(v.ms, k.xs[i].s).Some?
  }

  function PropertiesOf(ms: seq<Member>): seq<Member> {
    var p := Get(ms, "properties");
    if p.Some? && p.value.Obj? then p.value.ms else []
  }

  predicate Accepts(s: Json, v: Json, rule: Rule)
    decreases s, 0
  {
    match s
    case Bool(b) => b
    case Obj(ms) => forall i | 0 <= i < |ms| :: Keyword(ms[i].key, ms[i].value, ms, v, rule)
    case _ => true
  }

  /** One keyword `key` with value `k` beside its siblings `ms`; sections 10 of
      JSON Schema Core 2020-12 and 6.1, 6.5.3 of JSON Schema Validation. */
  predicate Keyword(key: string, k: Json, ms: seq<Member>, v: Json, rule: Rule)
    decreases k, 1
  {
    if key == "type" then TypeOk(k, v)
    else if key == "enum" then k.Arr? ==> v in k.xs
    else if key == "required" then RequiredOk(k, v)
    else if key == "properties" then
      k.Obj? && v.Obj? ==> forall i | 0 <= i < |k.ms| ::
        Get(v.ms, k.ms[i].key).Some? ==> Accepts(k.ms[i].value, Get(v.ms, k.ms[i].key).value, rule)
    else if key == "additionalProperties" then
      v.Obj? ==> forall i | 0 <= i < |v.ms| :: Get(PropertiesOf(ms), v.ms[i].key).None? ==> Accepts(k, v.ms[i].value, rule)
    else if key == "items" then v.Arr? ==> forall i | 0 <= i < |v.xs| :: Accepts(k, v.xs[i], rule)
    else if key == "allOf" then k.Arr? ==> forall i | 0 <= i < |k.xs| :: Accepts(k.xs[i], v, rule)
    else if key == "anyOf" then k.Arr? ==> exists i :: 0 <= i < |k.xs| && Accepts(k.xs[i], v, rule)
    else if key == "not" then !Accepts(k, v, rule)
    else rule(key, k, v)
  }

  predicate Unique(ms: seq<Member>) { forall i, j | 0 <= i < j < |ms| :: ms[i].key != ms[j].key }

  /** Nothing in it looks like an object schema, so it is sent as it is. */
  predicate Inert(j: Json) { Strict(j) == Some(j) }

  /** Schemas under keywords that only ever narrow, or under a `not` that is sent
      as it is; every object schema declares its properties and requires only
      those. */
  predicate Positive(s: Json)
    decreases s, 0
  {
    match s
    case Bool(_) => true
    case Obj(ms) => Fragment(ms) && (IsObject(ms) ==> RequiredIsDeclared(ms))
    case _ => false
  }

  /** All that, except that the object itself may require undeclared names. */
  predicate Fragment(ms: seq<Member>)
    decreases ms, 2
  {
    && Unique(ms) && (forall i | 0 <= i < |ms| :: PositiveKeyword(ms[i].key, ms[i].value, ms))
    && (IsObject(ms) ==> Get(ms, "properties").Some?)
  }

  predicate RequiredIsDeclared(ms: seq<Member>) {
    var r := Get(ms, "required");
    r.Some? && r.value.Arr? ==>
      forall i | 0 <= i < |r.value.xs| && r.value.xs[i].Str? :: Get(PropertiesOf(ms), r.value.xs[i].s).Some?
  }

  predicate PositiveKeyword(key: string, k: Json, ms: seq<Member>)
    decreases k, 1
  {
    if key == "properties" then k.Obj? && !IsObject(k.ms) && forall i | 0 <= i < |k.ms| :: Positive(k.ms[i].value)
    else if key == "additionalProperties" then IsObject(ms) || Positive(k)
    else if key == "items" then Positive(k)
    else if key == "allOf" || key == "anyOf" then k.Arr? && forall i | 0 <= i < |k.xs| :: Positive(k.xs[i])
    else if key == "required" then IsObject(ms) || Inert(k)
    else Inert(k)
  }

  // ------------------------------------------------------------------ lookups

  lemma {:induction false} MemberIsGet(ms: seq<Member>, i: nat)
    requires Unique(ms) && i < |ms|
    ensures Get(ms, ms[i].key) == Some(ms[i].value)
  {
    if i > 0 {
      assert Unique(ms[1..]);
      MemberIsGet(ms[1..], i - 1);
    }
  }

  /** The strict form of an object's members, overwritten ones included. */
  function After(ms: seq<Member>): seq<Member>
    requires Strict(Obj(ms)).Some?
  {
    Strict(Obj(ms)).value.ms
  }

  lemma KeywordAfter(ms: seq<Member>, key: string)
    requires Strict(Obj(ms)).Some? && !Overwritten(key) && Get(ms, key).Some?
    ensures Strict(Get(ms, key).value).Some?
    ensures Get(After(ms), key) == Strict(Get(ms, key).value)
  {
    var closed := IsObject(ms);
    GetStrict(ms, closed, key);
    if closed { CloseKeeps(StrictMembers(ms, closed).value, PropertiesOf(ms), key); }
  }

  /** What an accepted value satisfies of one keyword of the strict schema. */
  lemma KeywordHolds(ms: seq<Member>, key: string, v: Json, rule: Rule)
    requires Accepts(Obj(ms), v, rule) && Get(ms, key).Some?
    ensures Keyword(key, Get(ms, key).value, ms, v, rule)
  {
    var i := GetIsMember(ms, key);
  }

  lemma {:induction false} DeclaredIsKey(ps: seq<Member>, name: string) returns (i: nat)
    requires Get(ps, name).Some?
    ensures i < |Keys(ps)| && Keys(ps)[i] == Str(name)
  {
    if ps[0].key == name { return 0; }
    i := DeclaredIsKey(ps[1..], name);
    i := i + 1;
  }

  lemma {:induction false} SameNames(ps: seq<Member>, closed: bool, name: string)
    requires StrictMembers(ps, closed).Some?
    ensures Get(StrictMembers(ps, closed).value, name).Some? <==> Get(ps, name).Some?
  {
    if ps != [] { SameNames(ps[1..], closed, name); }
  }

  // --------------------------------------------------------- the strengthening

  /** One level: the strict form is accepted, so the local keyword holds. */
  lemma {:induction false} KeywordStrengthens(key: string, k: Json, ms: seq<Member>, v: Json, rule: Rule)
    requires Fragment(ms) && Strict(Obj(ms)).Some? && Accepts(Strict(Obj(ms)).value, v, rule)
    requires !Overwritten(key) && Get(ms, key) == Some(k) && PositiveKeyword(key, k, ms)
    ensures Keyword(key, k, ms, v, rule)
    decreases k, 1
  {
    var after := After(ms);
    KeywordAfter(ms, key);
    KeywordHolds(after, key, v, rule);
    var t := Strict(k).value;
    assert Keyword(key, t, after, v, rule);
    hide Keyword;
    if key == "properties" {
      PropertiesStrengthen(k, ms, after, v, rule);
    } else if key == "items" {
      ItemsStrengthen(k, ms, after, v, rule);
    } else if key == "allOf" {
      AllStrengthen(k, ms, after, v, rule);
    } else if key == "anyOf" {
      AnyStrengthens(k, ms, after, v, rule);
    } else if key == "not" {
      assert Inert(k);
      NotAside(k, ms, after, v, rule);
    } else {
      assert Inert(k);
      PlainKeyword(key, k, ms, after, v, rule);
    }
  }

  predicate Nested(key: string) {
    key == "properties" || key == "additionalProperties" || key == "items" || key == "allOf" || key == "anyOf" || key == "not"
  }

  lemma NotAside(k: Json, ms: seq<Member>, after: seq<Member>, v: Json, rule: Rule)
    ensures Keyword("not", k, ms, v, rule) == Keyword("not", k, after, v, rule)
  {
  }

  lemma PlainKeyword(key: string, k: Json, ms: seq<Member>, after: seq<Member>, v: Json, rule: Rule)
    requires !Nested(key) && Keyword(key, k, after, v, rule)
    ensures Keyword(key, k, ms, v, rule)
  {
  }

  lemma {:induction false} PropertiesStrengthen(k: Json, ms: seq<Member>, after: seq<Member>, v: Json, rule: Rule)
    requires k.Obj? && !IsObject(k.ms) && Strict(k).Some? && forall i | 0 <= i < |k.ms| :: Positive(k.ms[i].value)
    requires Keyword("properties", Strict(k).value, after, v, rule)
    ensures Keyword("properties", k, ms, v, rule)
    decreases k, 0
  {
    if v.Obj? {
      var ts := StrictMembers(k.ms, false).value;
      forall i | 0 <= i < |k.ms| && Get(v.ms, k.ms[i].key).Some?
        ensures Accepts(k.ms[i].value, Get(v.ms, k.ms[i].key).value, rule)
      {
        StrictMembersAt(k.ms, false, i);
        assert ts[i].key == k.ms[i].key;
        Strengthens(k.ms[i].value, Get(v.ms, k.ms[i].key).value, rule);
      }
    }
  }

  lemma {:induction false} ItemsStrengthen(k: Json, ms: seq<Member>, after: seq<Member>, v: Json, rule: Rule)
    requires Positive(k) && Strict(k).Some? && Keyword("items", Strict(k).value, after, v, rule)
    ensures Keyword("items", k, ms, v, rule)
    decreases k, 0, 1
  {
    if v.Arr? {
      forall i | 0 <= i < |v.xs| ensures Accepts(k, v.xs[i], rule) { Strengthens(k, v.xs[i], rule); }
    }
  }

  lemma {:induction false} AllStrengthen(k: Json, ms: seq<Member>, after: seq<Member>, v: Json, rule: Rule)
    requires k.Arr? && Strict(k).Some? && (forall i | 0 <= i < |k.xs| :: Positive(k.xs[i]))
    requires Keyword("allOf", Strict(k).value, after, v, rule)
    ensures Keyword("allOf", k, ms, v, rule)
    decreases k, 0
  {
    forall i | 0 <= i < |k.xs| ensures Accepts(k.xs[i], v, rule) {
      StrictAllAt(k.xs, i);
      Strengthens(k.xs[i], v, rule);
    }
  }

  lemma {:induction false} AnyStrengthens(k: Json, ms: seq<Member>, after: seq<Member>, v: Json, rule: Rule)
    requires k.Arr? && Strict(k).Some? && (forall i | 0 <= i < |k.xs| :: Positive(k.xs[i]))
    requires Keyword("anyOf", Strict(k).value, after, v, rule)
    ensures Keyword("anyOf", k, ms, v, rule)
    decreases k, 0
  {
    var ts := Strict(k).value.xs;
    StrictAllAt(k.xs, 0);
    var i :| 0 <= i < |ts| && Accepts(ts[i], v, rule);
    StrictAllAt(k.xs, i);
    Strengthens(k.xs[i], v, rule);
  }

  lemma ClosedRequired(k: Json, ms: seq<Member>, v: Json, rule: Rule)
    requires Fragment(ms) && Strict(Obj(ms)).Some? && Accepts(Strict(Obj(ms)).value, v, rule)
    requires IsObject(ms) && Get(ms, "required") == Some(k) && (v.Obj? ==> RequiredIsDeclared(ms))
    ensures Keyword("required", k, ms, v, rule)
  {
    if k.Arr? && v.Obj? {
      forall i | 0 <= i < |k.xs| && k.xs[i].Str? ensures Get(v.ms, k.xs[i].s).Some? {
        HoldsTheDeclared(ms, v, rule, k.xs[i].s);
      }
    }
  }

  /** An object the strict form of a closed schema accepts holds the declared
      names, all of them and no others. */
  lemma HoldsTheDeclared(ms: seq<Member>, v: Json, rule: Rule, name: string)
    requires Fragment(ms) && Strict(Obj(ms)).Some? && Accepts(Strict(Obj(ms)).value, v, rule) && IsObject(ms) && v.Obj?
    ensures Get(v.ms, name).Some? <==> Get(PropertiesOf(ms), name).Some?
  {
    var ps, after := PropertiesOf(ms), After(ms);
    if Get(ps, name).Some? {
      CloseKeeps(StrictMembers(ms, true).value, ps, "required");
      KeywordHolds(after, "required", v, rule);
      assert RequiredOk(Arr(Keys(ps)), v);
      var j := DeclaredIsKey(ps, name);
      assert Keys(ps)[j].Str?;
    }
    if Get(v.ms, name).Some? {
      var i := GetIsMember(v.ms, name);
      OnlyDeclared(ms, v, rule, i);
    }
  }

  lemma OnlyDeclared(ms: seq<Member>, v: Json, rule: Rule, i: nat)
    requires Fragment(ms) && Strict(Obj(ms)).Some? && Accepts(Strict(Obj(ms)).value, v, rule) && IsObject(ms)
    requires v.Obj? && i < |v.ms|
    ensures Get(PropertiesOf(ms), v.ms[i].key).Some?
  {
    var after := After(ms);
    CloseKeeps(StrictMembers(ms, true).value, PropertiesOf(ms), "properties");
    KeywordHolds(after, "additionalProperties", v, rule);
    assert !Accepts(Bool(false), v.ms[i].value, rule);
    assert Get(PropertiesOf(after), v.ms[i].key).Some?;
    SameProperties(ms, v.ms[i].key);
  }

  /** A closed object has no other members, so nothing more is asked of them. */
  lemma ClosedAdditional(k: Json, ms: seq<Member>, v: Json, rule: Rule)
    requires Fragment(ms) && Strict(Obj(ms)).Some? && Accepts(Strict(Obj(ms)).value, v, rule) && IsObject(ms)
    ensures Keyword("additionalProperties", k, ms, v, rule)
  {
    if v.Obj? {
      forall i | 0 <= i < |v.ms| ensures Get(PropertiesOf(ms), v.ms[i].key).Some? { OnlyDeclared(ms, v, rule, i); }
    }
  }

  lemma SameProperties(ms: seq<Member>, name: string)
    requires Fragment(ms) && Strict(Obj(ms)).Some?
    ensures Get(PropertiesOf(After(ms)), name).Some? <==> Get(PropertiesOf(ms), name).Some?
  {
    var p := Get(ms, "properties");
    if p.Some? {
      KeywordAfter(ms, "properties");
      var i := GetIsMember(ms, "properties");
      assert PositiveKeyword("properties", ms[i].value, ms);
      SameNames(p.value.ms, false, name);
    } else {
      NoNewProperties(ms);
    }
  }

  lemma NoNewProperties(ms: seq<Member>)
    requires Strict(Obj(ms)).Some? && Get(ms, "properties").None?
    ensures Get(After(ms), "properties").None?
  {
    GetStrict(ms, IsObject(ms), "properties");
  }

  lemma {:induction false} OpenAdditional(k: Json, ms: seq<Member>, v: Json, rule: Rule)
    requires Fragment(ms) && Strict(Obj(ms)).Some? && Accepts(Strict(Obj(ms)).value, v, rule)
    requires !IsObject(ms) && Get(ms, "additionalProperties") == Some(k) && Positive(k)
    ensures Keyword("additionalProperties", k, ms, v, rule)
    decreases k, 0, 1
  {
    var after := After(ms);
    GetStrict(ms, false, "additionalProperties");
    KeywordHolds(after, "additionalProperties", v, rule);
    if v.Obj? {
      forall i | 0 <= i < |v.ms| && Get(PropertiesOf(ms), v.ms[i].key).None? ensures Accepts(k, v.ms[i].value, rule) {
        SameProperties(ms, v.ms[i].key);
        Strengthens(k, v.ms[i].value, rule);
      }
    }
  }

  lemma OpenRequired(k: Json, ms: seq<Member>, v: Json, rule: Rule)
    requires Fragment(ms) && Strict(Obj(ms)).Some? && Accepts(Strict(Obj(ms)).value, v, rule)
    requires !IsObject(ms) && Get(ms, "required") == Some(k) && Inert(k)
    ensures Keyword("required", k, ms, v, rule)
  {
    GetStrict(ms, false, "required");
    KeywordHolds(After(ms), "required", v, rule);
  }

  /** Every value the strict schema accepts is accepted by the local schema. */
  lemma {:induction false} Strengthens(s: Json, v: Json, rule: Rule)
    requires Positive(s) && Strict(s).Some? && Accepts(Strict(s).value, v, rule)
    ensures Accepts(s, v, rule)
    decreases s, 0, 0
  {
    if s.Obj? {
      var ms := s.ms;
      hide Keyword, Fragment, Strict;
      forall i | 0 <= i < |ms| ensures Keyword(ms[i].key, ms[i].value, ms, v, rule) {
        MemberStrengthens(s, i, v, rule);
      }
    }
  }

  lemma {:induction false} MemberStrengthens(s: Json, i: nat, v: Json, rule: Rule)
    requires s.Obj? && i < |s.ms|
    requires Fragment(s.ms) && Strict(s).Some? && Accepts(Strict(s).value, v, rule)
    requires IsObject(s.ms) && v.Obj? ==> RequiredIsDeclared(s.ms)
    ensures Keyword(s.ms[i].key, s.ms[i].value, s.ms, v, rule)
    decreases s.ms[i].value, 2
  {
    var ms, key, k := s.ms, s.ms[i].key, s.ms[i].value;
    MemberIsGet(ms, i);
    assert PositiveKeyword(key, k, ms);
    hide Keyword, Strict;
    if !Overwritten(key) {
      KeywordStrengthens(key, k, ms, v, rule);
    } else if IsObject(ms) {
      if key == "required" { ClosedRequired(k, ms, v, rule); } else { ClosedAdditional(k, ms, v, rule); }
    } else {
      if key == "required" { OpenRequired(k, ms, v, rule); } else { OpenAdditional(k, ms, v, rule); }
    }
  }

  /** A value the strict form of an object schema accepts is accepted by the
      local schema if and only if the names required there are declared, or the
      value is no object. */
  lemma StrengthensIff(ms: seq<Member>, v: Json, rule: Rule)
    requires Fragment(ms) && IsObject(ms) && Strict(Obj(ms)).Some? && Accepts(Strict(Obj(ms)).value, v, rule)
    ensures Accepts(Obj(ms), v, rule) <==> (v.Obj? ==> RequiredIsDeclared(ms))
  {
    hide Keyword, Fragment, Strict, RequiredIsDeclared;
    if v.Obj? && !RequiredIsDeclared(ms) {
      UndeclaredFails(ms, v, rule);
    } else {
      forall i | 0 <= i < |ms| ensures Keyword(ms[i].key, ms[i].value, ms, v, rule) {
        MemberStrengthens(Obj(ms), i, v, rule);
      }
    }
  }

  lemma UndeclaredFails(ms: seq<Member>, v: Json, rule: Rule)
    requires Fragment(ms) && IsObject(ms) && Strict(Obj(ms)).Some? && Accepts(Strict(Obj(ms)).value, v, rule)
    requires v.Obj? && !RequiredIsDeclared(ms)
    ensures !Accepts(Obj(ms), v, rule)
  {
    var k := Get(ms, "required").value;
    var i :| 0 <= i < |k.xs| && k.xs[i].Str? && Get(PropertiesOf(ms), k.xs[i].s).None?;
    HoldsTheDeclared(ms, v, rule, k.xs[i].s);
    assert !RequiredOk(k, v);
    hide Fragment, Strict;
    if Accepts(Obj(ms), v, rule) { KeywordHolds(ms, "required", v, rule); }
  }

  // ------------------------------------------------- why the fragment is needed

  lemma {:induction false} SetReplaces(ms: seq<Member>, i: nat, value: Json)
    requires i < |ms| && Unique(ms)
    ensures Set(ms, ms[i].key, value) == ms[i := Member(ms[i].key, value)]
  {
    if i > 0 {
      assert Unique(ms[1..]);
      SetReplaces(ms[1..], i - 1, value);
      assert ms[0].key != ms[i].key;
      assert ms[i := Member(ms[i].key, value)] == [ms[0]] + ms[1..][i - 1 := Member(ms[i].key, value)];
    }
  }

  const TYPE := Member("type", Str("object"))
  const NO_PROPERTIES := Member("properties", Obj([]))
  const NO_MORE := Member("additionalProperties", Bool(false))

  lemma {:induction false} NotAMember(ms: seq<Member>, key: string)
    requires forall i | 0 <= i < |ms| :: ms[i].key != key
    ensures Get(ms, key).None?
  {
    if ms != [] { NotAMember(ms[1..], key); }
  }

  lemma UndeclaredShape(r: Json)
    ensures var ms := [TYPE, NO_PROPERTIES, Member("required", r)];
            Strict(Obj(ms)) == Some(Obj([TYPE, NO_PROPERTIES, Member("required", Arr([])), NO_MORE]))
  {
    var m := Member("required", r);
    var ms := [TYPE, NO_PROPERTIES, m];
    MemberIsGet(ms, 0);
    MemberIsGet(ms, 1);
    assert ms[1..] == [NO_PROPERTIES, m] && [NO_PROPERTIES, m][1..] == [m] && [m][1..] == [];
    NotAMember(ms, "additionalProperties");
    SetAppends(ms, "additionalProperties", Bool(false));
    SetReplaces(ms + [NO_MORE], 2, Arr([]));
    assert Close(ms, []) == [TYPE, NO_PROPERTIES, Member("required", Arr([])), NO_MORE];
    assert StrictMembers([], true) == Some([]) && [m] + [] == [m] && StrictMembers([m], true) == Some([m]);
    assert Strict(Obj([])) == Some(Obj([])) && StrictMembers([NO_PROPERTIES, m], true) == Some([NO_PROPERTIES] + [m]);
    assert [TYPE] + ([NO_PROPERTIES] + [m]) == ms && StrictMembers(ms, true) == Some(ms);
  }

  lemma OneFails(ms: seq<Member>, i: nat, v: Json, rule: Rule)
    requires i < |ms| && !Keyword(ms[i].key, ms[i].value, ms, v, rule)
    ensures !Accepts(Obj(ms), v, rule)
  {
  }

  /** A requirement that is not among the properties is dropped. */
  lemma UndeclaredRequirementIsDropped(rule: Rule) returns (s: Json, v: Json)
    ensures Strict(s).Some? && Accepts(Strict(s).value, v, rule) && !Accepts(s, v, rule)
  {
    hide Strict, Keyword;
    var r := Arr([Str("a")]);
    s, v := Obj([TYPE, NO_PROPERTIES, Member("required", r)]), Obj([]);
    UndeclaredShape(r);
    assert r.xs[0] == Str("a") && !RequiredOk(r, v);
    RequiredKeyword(r, s.ms, v, rule);
    OneFails(s.ms, 2, v, rule);
    EmptyIsAccepted(v, rule);
  }

  lemma RequiredKeyword(r: Json, ms: seq<Member>, v: Json, rule: Rule)
    ensures Keyword("required", r, ms, v, rule) == RequiredOk(r, v)
  {
  }

  lemma EmptyIsAccepted(v: Json, rule: Rule)
    requires v == Obj([])
    ensures Accepts(Obj([TYPE, NO_PROPERTIES, Member("required", Arr([])), NO_MORE]), v, rule)
  {
    var t := [TYPE, NO_PROPERTIES, Member("required", Arr([])), NO_MORE];
    RequiredKeyword(Arr([]), t, v, rule);
    ObjectType(t, v, rule);
    forall i | 0 <= i < |t| ensures Keyword(t[i].key, t[i].value, t, v, rule) { }
  }

  lemma ObjectType(ms: seq<Member>, v: Json, rule: Rule)
    requires v.Obj?
    ensures Keyword("type", Str("object"), ms, v, rule) && Keyword("properties", Obj([]), ms, v, rule)
  {
  }

  /** An object schema without properties accepts every object, until it is
      closed. */
  lemma EmptyObject(v: Json, rule: Rule)
    requires v.Obj? && v.ms != []
    ensures var s := ObjectOf(Obj([]));
            Accepts(s, v, rule) && Strict(s).Some? && !Accepts(Strict(s).value, v, rule)
  {
    var ms := ObjectOf(Obj([])).ms;
    StrictObject([]);
    var t := Strict(ObjectOf(Obj([]))).value.ms;
    assert t == Close(ms, []);
    CloseKeeps(ms, [], "properties");
    MemberIsGet(ms, 1);
    hide Strict, Close, Keyword;
    ObjectType(ms, v, rule);
    var i := GetIsMember(t, "additionalProperties");
    assert PropertiesOf(t) == [];
    ClosedKeyword(t, v, rule);
    OneFails(t, i, v, rule);
  }

  lemma ClosedKeyword(t: seq<Member>, v: Json, rule: Rule)
    requires PropertiesOf(t) == [] && v.Obj? && v.ms != []
    ensures !Keyword("additionalProperties", Bool(false), t, v, rule)
  {
    assert Get(PropertiesOf(t), v.ms[0].key).None? && !Accepts(Bool(false), v.ms[0].value, rule);
  }

  lemma NotKeyword(k: Json, v: Json, rule: Rule)
    ensures Accepts(Obj([Member("not", k)]), v, rule) == !Accepts(k, v, rule)
  {
    var m := [Member("not", k)];
    assert Keyword(m[0].key, m[0].value, m, v, rule) == !Accepts(k, v, rule);
  }

  /** Under `not`, strengthening the inside weakens the whole. */
  lemma NegationIsWeakened(rule: Rule) returns (s: Json, v: Json)
    ensures Strict(s).Some? && Accepts(Strict(s).value, v, rule) && !Accepts(s, v, rule)
  {
    var inner := ObjectOf(Obj([]));
    v := Obj([Member("a", Null)]);
    hide Keyword, Accepts;
    EmptyObject(v, rule);
    s := Obj([Member("not", inner)]);
    StrictOne(Member("not", inner), false);
    hide StrictMembers;
    assert Strict(s) == Some(Obj([Member("not", Strict(inner).value)]));
    NotKeyword(inner, v, rule);
    NotKeyword(Strict(inner).value, v, rule);
  }

  // ---------------------------------------------------------------- under `not`

  /** The strict form refuses nothing the local schema accepts. */
  ghost predicate Keeps(s: Json, rule: Rule)
    requires Strict(s).Some?
  {
    forall v | Accepts(s, v, rule) :: Accepts(Strict(s).value, v, rule)
  }

  ghost predicate Satisfiable(s: Json, rule: Rule) { exists v :: Accepts(s, v, rule) }

  /** Every declared property is required, and nothing else is let in. */
  predicate Tightened(ms: seq<Member>) {
    && (forall i | 0 <= i < |PropertiesOf(ms)| :: Requires(ms, PropertiesOf(ms)[i].key))
    && Get(ms, "additionalProperties") == Some(Bool(false))
  }

  predicate Requires(ms: seq<Member>, name: string) {
    var r := Get(ms, "required");
    r.Some? && r.value.Arr? && Str(name) in r.value.xs
  }

  /** As strict as it gets, all the way down. */
  predicate Tight(s: Json)
    decreases s
  {
    Inert(s) || (s.Obj? && IsObject(s.ms) && Tightened(s.ms)
                 && forall i | 0 <= i < |s.ms| :: s.ms[i].key == "properties" ==> TightTable(s.ms[i].value))
  }

  predicate TightTable(t: Json)
    decreases t
  {
    t.Obj? && forall i | 0 <= i < |t.ms| :: Tight(t.ms[i].value)
  }

  /** An object schema of type, properties, required and additionalProperties;
      extra members, when a schema is given for them, can exist. */
  ghost predicate Plain(ms: seq<Member>, rule: Rule) {
    && Fragment(ms) && IsObject(ms) && RequiredIsDeclared(ms) && Unique(PropertiesOf(ms))
    && (forall i | 0 <= i < |ms| :: ms[i].key in {"type", "properties", "required", "additionalProperties"})
    && (Get(ms, "required").Some? ==> Strings(Get(ms, "required").value))
    && (var extra := Get(ms, "additionalProperties"); extra.Some? && extra.value != Bool(false) ==> Satisfiable(extra.value, rule))
  }

  /** Schemas that are sent as they are and accept something, and plain object
      schemas over such. */
  ghost predicate Layered(s: Json, rule: Rule)
    decreases s
  {
    (Inert(s) && Satisfiable(s, rule))
    || (s.Obj? && Plain(s.ms, rule) && forall i | 0 <= i < |s.ms| :: s.ms[i].key == "properties" ==> LayeredTable(s.ms[i].value, rule))
  }

  ghost predicate LayeredTable(t: Json, rule: Rule)
    decreases t
  {
    t.Obj? && forall i | 0 <= i < |t.ms| :: Layered(t.ms[i].value, rule)
  }

  /** `not s` is strengthened if and only if strengthening `s` loses nothing. */
  lemma NotStrengthensIff(s: Json, rule: Rule)
    requires Strict(s).Some?
    ensures var n := Obj([Member("not", s)]);
            && Strict(n) == Some(Obj([Member("not", Strict(s).value)]))
            && ((forall v | Accepts(Strict(n).value, v, rule) :: Accepts(n, v, rule)) <==> Keeps(s, rule))
  {
    var n, t := Obj([Member("not", s)]), Strict(s).value;
    StrictOne(Member("not", s), false);
    assert Get(n.ms, "type").None? by { assert n.ms[1..] == []; }
    assert Strict(n) == Some(Obj([Member("not", t)]));
    hide Strict, Accepts;
    forall v ensures Accepts(n, v, rule) == !Accepts(s, v, rule) && Accepts(Obj([Member("not", t)]), v, rule) == !Accepts(t, v, rule) {
      NotKeyword(s, v, rule);
      NotKeyword(t, v, rule);
    }
    if Keeps(s, rule) {
      forall v | Accepts(Obj([Member("not", t)]), v, rule) ensures Accepts(n, v, rule) {}
    } else {
      var v :| Accepts(s, v, rule) && !Accepts(t, v, rule);
      assert Accepts(Obj([Member("not", t)]), v, rule) && !Accepts(n, v, rule);
    }
  }

  /** One value for every declared property. */
  ghost predicate Samples(w: seq<Member>, ps: seq<Member>, rule: Rule) {
    |w| == |ps| && forall i | 0 <= i < |ps| :: w[i].key == ps[i].key && Accepts(ps[i].value, w[i].value, rule)
  }

  lemma {:induction false} SamplesExist(ps: seq<Member>, rule: Rule) returns (w: seq<Member>)
    requires forall i | 0 <= i < |ps| :: Satisfiable(ps[i].value, rule)
    ensures Samples(w, ps, rule)
  {
    if ps == [] { return []; }
    hide Accepts;
    assert Satisfiable(ps[0].value, rule);
    var v :| Accepts(ps[0].value, v, rule);
    hide Satisfiable;
    assert forall i | 0 <= i < |ps[1..]| :: ps[1..][i] == ps[i + 1];
    var rest := SamplesExist(ps[1..], rule);
    w := [Member(ps[0].key, v)] + rest;
  }

  /** What makes a plain object schema accept an object. */
  ghost predicate Suits(ms: seq<Member>, w: seq<Member>, rule: Rule) {
    var ps, extra := PropertiesOf(ms), Get(ms, "additionalProperties");
    && (forall i | 0 <= i < |ps| :: Get(w, ps[i].key).Some? ==> Accepts(ps[i].value, Get(w, ps[i].key).value, rule))
    && (forall name | Requires(ms, name) :: Get(w, name).Some?)
    && (extra.Some? ==> forall i | 0 <= i < |w| :: Get(ps, w[i].key).None? ==> Accepts(extra.value, w[i].value, rule))
  }

  lemma SuitedIsAccepted(ms: seq<Member>, w: seq<Member>, rule: Rule)
    requires Plain(ms, rule) && Suits(ms, w, rule)
    ensures Accepts(Obj(ms), Obj(w), rule)
  {
    var v := Obj(w);
    hide Fragment, RequiredIsDeclared;
    forall i | 0 <= i < |ms| ensures Keyword(ms[i].key, ms[i].value, ms, v, rule) {
      assert Unique(ms) by { FragmentIsUnique(ms); }
      MemberIsGet(ms, i);
      var k := ms[i].value;
      if ms[i].key == "required" {
        forall j | 0 <= j < |k.xs| ensures Get(w, k.xs[j].s).Some? { assert Requires(ms, k.xs[j].s); }
      } else if ms[i].key == "properties" {
        assert k.Obj? ==> PropertiesOf(ms) == k.ms;
      }
    }
  }

  lemma FragmentIsUnique(ms: seq<Member>)
    requires Fragment(ms)
    ensures Unique(ms)
  {
  }

  lemma {:induction false} SampleOf(w: seq<Member>, ps: seq<Member>, rule: Rule, i: nat)
    requires Samples(w, ps, rule) && Unique(ps) && i < |ps|
    ensures Unique(w) && Get(w, ps[i].key) == Some(w[i].value) && Get(ps, w[i].key) == Some(ps[i].value)
  {
    MemberIsGet(w, i);
    MemberIsGet(ps, i);
  }

  /** Only declared names are required. */
  lemma RequiredAreDeclared(ms: seq<Member>, name: string)
    requires RequiredIsDeclared(ms) && Requires(ms, name)
    ensures Get(PropertiesOf(ms), name).Some?
  {
    var xs := Get(ms, "required").value.xs;
    var i :| 0 <= i < |xs| && xs[i] == Str(name);
  }

  lemma SamplesSuit(ms: seq<Member>, w: seq<Member>, rule: Rule)
    requires Plain(ms, rule) && Samples(w, PropertiesOf(ms), rule)
    ensures Suits(ms, w, rule)
  {
    var ps := PropertiesOf(ms);
    forall i | 0 <= i < |ps| ensures Get(w, ps[i].key) == Some(w[i].value) && Get(ps, w[i].key).Some? { SampleOf(w, ps, rule, i); }
    forall name | Requires(ms, name) ensures Get(w, name).Some? {
      RequiredAreDeclared(ms, name);
      var i := GetIsMember(ps, name);
    }
  }

  /** One property is not required: an object without it tells the two apart. */
  lemma MissingIsLost(ms: seq<Member>, w: seq<Member>, j: nat, rule: Rule)
    requires Plain(ms, rule) && Strict(Obj(ms)).Some? && Samples(w, PropertiesOf(ms), rule)
    requires j < |PropertiesOf(ms)| && !Requires(ms, PropertiesOf(ms)[j].key)
    ensures !Keeps(Obj(ms), rule)
  {
    var ps, less := PropertiesOf(ms), w[..j] + w[j + 1..];
    forall i | 0 <= i < |less| ensures less[i] == w[if i < j then i else i + 1] {}
    forall i | 0 <= i < |ps| ensures i != j ==> Get(less, ps[i].key) == Some(w[i].value)
      ensures Get(ps, w[i].key).Some?
    {
      SampleOf(w, ps, rule, i);
      if i != j {
        assert less[if i < j then i else i - 1] == w[i];
        MemberIsGet(less, if i < j then i else i - 1);
      }
    }
    NotAMember(less, ps[j].key);
    forall name | Requires(ms, name) ensures Get(less, name).Some? {
      RequiredAreDeclared(ms, name);
      var i := GetIsMember(ps, name);
    }
    assert Suits(ms, less, rule);
    SuitedIsAccepted(ms, less, rule);
    MemberIsGet(ps, j);
    if Accepts(Strict(Obj(ms)).value, Obj(less), rule) { HoldsTheDeclared(ms, Obj(less), rule, ps[j].key); }
  }

  lemma {:induction false} LongestKey(ms: seq<Member>) returns (n: nat)
    ensures forall i | 0 <= i < |ms| :: |ms[i].key| <= n
  {
    if ms == [] { return 0; }
    n := LongestKey(ms[1..]);
    assert forall i | 0 < i < |ms| :: ms[i] == ms[1..][i - 1];
    if n < |ms[0].key| { n := |ms[0].key|; }
  }

  /** Something undeclared is let in: it tells the two apart. */
  lemma ExtraIsLost(ms: seq<Member>, w: seq<Member>, rule: Rule)
    requires Plain(ms, rule) && Strict(Obj(ms)).Some? && Samples(w, PropertiesOf(ms), rule)
    requires Get(ms, "additionalProperties") != Some(Bool(false))
    ensures !Keeps(Obj(ms), rule)
  {
    var ps, extra := PropertiesOf(ms), Get(ms, "additionalProperties");
    var n := LongestKey(ps);
    var name := seq(n + 1, i => 'x');
    assert forall i | 0 <= i < |ps| :: ps[i].key != name;
    NotAMember(ps, name);
    var v := Null;
    if extra.Some? { v :| Accepts(extra.value, v, rule); }
    var more := w + [Member(name, v)];
    SamplesSuit(ms, w, rule);
    forall i | 0 <= i < |ps| ensures Get(more, ps[i].key) == Some(w[i].value) && Get(ps, w[i].key).Some? {
      SampleOf(w, ps, rule, i);
      assert more[i] == w[i] && Unique(more);
      MemberIsGet(more, i);
    }
    forall key | Requires(ms, key) ensures Get(more, key).Some? {
      RequiredAreDeclared(ms, key);
      var i := GetIsMember(ps, key);
    }
    assert Suits(ms, more, rule);
    SuitedIsAccepted(ms, more, rule);
    assert more[|w|] == Member(name, v) && Unique(more);
    MemberIsGet(more, |w|);
    if Accepts(Strict(Obj(ms)).value, Obj(more), rule) { HoldsTheDeclared(ms, Obj(more), rule, name); }
  }

  lemma StrictProperty(ms: seq<Member>, j: nat)
    requires Fragment(ms) && IsObject(ms) && Strict(Obj(ms)).Some? && j < |PropertiesOf(ms)|
    ensures var ps, ts := PropertiesOf(ms), PropertiesOf(After(ms));
            && Get(After(ms), "properties") == Some(Obj(ts)) && |ts| == |ps|
            && ts[j].key == ps[j].key && Strict(ps[j].value) == Some(ts[j].value)
  {
    KeywordAfter(ms, "properties");
    var i := GetIsMember(ms, "properties");
    assert PositiveKeyword("properties", ms[i].value, ms);
    StrictMembersAt(PropertiesOf(ms), false, j);
  }

  /** A property is refused more: an object with such a value tells the two apart. */
  lemma PropertyIsLost(ms: seq<Member>, w: seq<Member>, j: nat, u: Json, rule: Rule)
    requires Plain(ms, rule) && Strict(Obj(ms)).Some? && Samples(w, PropertiesOf(ms), rule) && j < |PropertiesOf(ms)|
    requires Accepts(PropertiesOf(ms)[j].value, u, rule)
    requires Strict(PropertiesOf(ms)[j].value).Some? ==> !Accepts(Strict(PropertiesOf(ms)[j].value).value, u, rule)
    ensures !Keeps(Obj(ms), rule)
  {
    var ps := PropertiesOf(ms);
    var other := w[j := Member(ps[j].key, u)];
    SamplesSuit(ms, other, rule);
    SuitedIsAccepted(ms, other, rule);
    SampleOf(other, ps, rule, j);
    StrictProperty(ms, j);
    if Accepts(Strict(Obj(ms)).value, Obj(other), rule) { KeywordHolds(After(ms), "properties", Obj(other), rule); }
  }

  lemma {:induction false} SetMembers(ms: seq<Member>, key: string, value: Json)
    requires Unique(ms)
    ensures Unique(Set(ms, key, value))
    ensures forall m | m in Set(ms, key, value) :: m.key == key || m in ms
  {
    if ms != [] && ms[0].key != key {
      var rest := Set(ms[1..], key, value);
      SetMembers(ms[1..], key, value);
      forall i | 0 <= i < |rest| ensures rest[i].key != ms[0].key {
        if rest[i].key != key { assert rest[i] in ms[1..]; }
      }
    }
  }

  /** The strict form of a plain object schema has the same four keywords. */
  lemma AfterIsPlain(ms: seq<Member>, rule: Rule)
    requires Plain(ms, rule) && Strict(Obj(ms)).Some?
    ensures Unique(After(ms))
    ensures forall i | 0 <= i < |After(ms)| :: After(ms)[i].key in {"type", "properties", "required", "additionalProperties"}
  {
    var inner, ps := StrictMembers(ms, true).value, PropertiesOf(ms);
    FragmentIsUnique(ms);
    forall i | 0 <= i < |inner| ensures i < |ms| && inner[i].key == ms[i].key { StrictMembersAt(ms, true, i); }
    assert Unique(inner);
    var once := Set(inner, "additionalProperties", Bool(false));
    SetMembers(inner, "additionalProperties", Bool(false));
    SetMembers(once, "required", Arr(Keys(ps)));
  }

  lemma {:induction false} KeyIsDeclared(ps: seq<Member>, i: nat)
    requires i < |Keys(ps)|
    ensures |Keys(ps)| == |ps| && Keys(ps)[i] == Str(ps[i].key)
  {
    OneKeyEach(ps);
    if i > 0 { KeyIsDeclared(ps[1..], i - 1); }
  }

  lemma RequiredIsKept(ms: seq<Member>, v: Json, rule: Rule)
    requires Plain(ms, rule) && Tightened(ms) && Accepts(Obj(ms), v, rule)
    ensures RequiredOk(Arr(Keys(PropertiesOf(ms))), v)
  {
    var ps := PropertiesOf(ms);
    hide Fragment;
    if v.Obj? {
      forall i | 0 <= i < |Keys(ps)| && Keys(ps)[i].Str? ensures Get(v.ms, Keys(ps)[i].s).Some? {
        KeyIsDeclared(ps, i);
        assert Requires(ms, ps[i].key);
        KeywordHolds(ms, "required", v, rule);
        var xs := Get(ms, "required").value.xs;
        assert RequiredOk(Arr(xs), v);
        var j :| 0 <= j < |xs| && xs[j] == Str(ps[i].key);
      }
    }
  }

  lemma ExtraIsKept(ms: seq<Member>, v: Json, rule: Rule)
    requires Plain(ms, rule) && Strict(Obj(ms)).Some? && Tightened(ms) && Accepts(Obj(ms), v, rule)
    ensures Keyword("additionalProperties", Bool(false), After(ms), v, rule)
  {
    KeywordHolds(ms, "additionalProperties", v, rule);
    if v.Obj? {
      forall i | 0 <= i < |v.ms| ensures Get(PropertiesOf(After(ms)), v.ms[i].key).Some? {
        NameStays(ms, v.ms[i].key);
      }
    }
  }

  lemma NameStays(ms: seq<Member>, name: string)
    requires Fragment(ms) && IsObject(ms) && Strict(Obj(ms)).Some?
    ensures Get(PropertiesOf(After(ms)), name).Some? <==> Get(PropertiesOf(ms), name).Some?
  {
    KeywordAfter(ms, "properties");
    var i := GetIsMember(ms, "properties");
    assert PositiveKeyword("properties", ms[i].value, ms);
    SameNames(PropertiesOf(ms), false, name);
  }

  lemma PropertiesAreKept(ms: seq<Member>, v: Json, rule: Rule)
    requires Plain(ms, rule) && Strict(Obj(ms)).Some? && Accepts(Obj(ms), v, rule)
    requires forall j | 0 <= j < |PropertiesOf(ms)| :: KeepsIfSent(PropertiesOf(ms)[j].value, rule)
    ensures Get(After(ms), "properties").Some? && Keyword("properties", Get(After(ms), "properties").value, After(ms), v, rule)
  {
    var ps, ts := PropertiesOf(ms), PropertiesOf(After(ms));
    KeywordAfter(ms, "properties");
    KeywordHolds(ms, "properties", v, rule);
    var k := GetIsMember(ms, "properties");
    assert PositiveKeyword("properties", ms[k].value, ms);
    if v.Obj? {
      forall i | 0 <= i < |ts| && Get(v.ms, ts[i].key).Some? ensures Accepts(ts[i].value, Get(v.ms, ts[i].key).value, rule) {
        StrictMembersAt(ps, false, 0);
        StrictProperty(ms, i);
        assert KeepsIfSent(ps[i].value, rule) && Accepts(ps[i].value, Get(v.ms, ps[i].key).value, rule);
      }
    }
  }

  ghost predicate KeepsIfSent(s: Json, rule: Rule) { Strict(s).Some? ==> Keeps(s, rule) }

  lemma TightIsKept(ms: seq<Member>, rule: Rule)
    requires Plain(ms, rule) && Strict(Obj(ms)).Some? && Tightened(ms)
    requires forall j | 0 <= j < |PropertiesOf(ms)| :: KeepsIfSent(PropertiesOf(ms)[j].value, rule)
    ensures Keeps(Obj(ms), rule)
  {
    var after := After(ms);
    AfterIsPlain(ms, rule);
    CloseKeeps(StrictMembers(ms, true).value, PropertiesOf(ms), "type");
    hide Strict, Fragment, KeepsIfSent;
    forall v | Accepts(Obj(ms), v, rule) ensures Accepts(Obj(after), v, rule) {
      forall i | 0 <= i < |after| ensures Keyword(after[i].key, after[i].value, after, v, rule) {
        MemberIsGet(after, i);
        AfterHolds(ms, after[i].key, v, rule);
      }
    }
  }

  lemma AfterHolds(ms: seq<Member>, key: string, v: Json, rule: Rule)
    requires Plain(ms, rule) && Strict(Obj(ms)).Some? && Tightened(ms) && Accepts(Obj(ms), v, rule)
    requires forall j | 0 <= j < |PropertiesOf(ms)| :: KeepsIfSent(PropertiesOf(ms)[j].value, rule)
    requires key in {"type", "properties", "required", "additionalProperties"} && Get(After(ms), key).Some?
    ensures Keyword(key, Get(After(ms), key).value, After(ms), v, rule)
  {
    CloseKeeps(StrictMembers(ms, true).value, PropertiesOf(ms), key);
    hide KeepsIfSent;
    if key == "type" {
      var i := GetIsMember(ms, "type");
      assert PositiveKeyword("type", ms[i].value, ms);
      KeywordAfter(ms, "type");
      KeywordHolds(ms, "type", v, rule);
    } else if key == "properties" {
      PropertiesAreKept(ms, v, rule);
    } else if key == "required" {
      RequiredIsKept(ms, v, rule);
    } else {
      ExtraIsKept(ms, v, rule);
    }
  }

  lemma {:induction false} TableOf(ms: seq<Member>, rule: Rule) returns (k: nat)
    requires Plain(ms, rule)
    ensures k < |ms| && ms[k].key == "properties" && ms[k].value == Obj(PropertiesOf(ms))
    ensures forall i | 0 <= i < |ms| && ms[i].key == "properties" :: i == k
  {
    k := GetIsMember(ms, "properties");
    assert PositiveKeyword("properties", ms[k].value, ms);
    FragmentIsUnique(ms);
  }

  lemma {:induction false} LayeredIsSatisfiable(s: Json, rule: Rule)
    requires Layered(s, rule)
    ensures Satisfiable(s, rule)
    decreases s
  {
    if !(Inert(s) && Satisfiable(s, rule)) {
      var k := TableOf(s.ms, rule);
      var t := s.ms[k].value;
      assert LayeredTable(t, rule);
      forall i | 0 <= i < |t.ms| ensures Satisfiable(t.ms[i].value, rule) { LayeredIsSatisfiable(t.ms[i].value, rule); }
      var w := SamplesExist(t.ms, rule);
      SamplesSuit(s.ms, w, rule);
      SuitedIsAccepted(s.ms, w, rule);
    }
  }

  /** Strengthening loses nothing if and only if the schema is already as strict
      as it gets. */
  lemma {:induction false} KeepsIffTight(s: Json, rule: Rule)
    requires Layered(s, rule) && Strict(s).Some?
    ensures Keeps(s, rule) <==> Tight(s)
    decreases s
  {
    if Inert(s) { return; }
    var k := TableOf(s.ms, rule);
    var t := s.ms[k].value;
    assert LayeredTable(t, rule);
    forall i | 0 <= i < |t.ms| ensures Satisfiable(t.ms[i].value, rule) && Strict(t.ms[i].value).Some? {
      LayeredIsSatisfiable(t.ms[i].value, rule);
      StrictProperty(s.ms, i);
    }
    forall i | 0 <= i < |t.ms| ensures Keeps(t.ms[i].value, rule) <==> Tight(t.ms[i].value) { KeepsIffTight(t.ms[i].value, rule); }
    var w := SamplesExist(t.ms, rule);
    LayerIff(s.ms, w, rule);
    assert Tight(s) <==> Tightened(s.ms) && TightTable(t);
  }

  /** One layer: nothing is lost here, and nothing in any property. */
  lemma LayerIff(ms: seq<Member>, w: seq<Member>, rule: Rule)
    requires Plain(ms, rule) && Strict(Obj(ms)).Some? && Samples(w, PropertiesOf(ms), rule)
    ensures Keeps(Obj(ms), rule) <==> Tightened(ms) && forall j | 0 <= j < |PropertiesOf(ms)| :: KeepsIfSent(PropertiesOf(ms)[j].value, rule)
  {
    var ps := PropertiesOf(ms);
    hide Strict, Fragment, Accepts, Plain, Requires;
    if !Tightened(ms) {
      if j :| 0 <= j < |ps| && !Requires(ms, ps[j].key) { MissingIsLost(ms, w, j, rule); } else { ExtraIsLost(ms, w, rule); }
    } else if j :| 0 <= j < |ps| && !KeepsIfSent(ps[j].value, rule) {
      var u :| Accepts(ps[j].value, u, rule) && !Accepts(Strict(ps[j].value).value, u, rule);
      PropertyIsLost(ms, w, j, u, rule);
    } else {
      TightIsKept(ms, rule);
    }
  }

  /** Under `not` every value the strict form accepts is accepted locally if and
      only if the negated schema already requires all it declares and lets
      nothing else in, all the way down. */
  lemma NegationStrengthensIff(s: Json, rule: Rule)
    requires Layered(s, rule) && Strict(s).Some?
    ensures var n := Obj([Member("not", s)]);
            Strict(n).Some? && ((forall v | Accepts(Strict(n).value, v, rule) :: Accepts(n, v, rule)) <==> Tight(s))
  {
    KeepsIffTight(s, rule);
    NotStrengthensIff(s, rule);
  }
}
