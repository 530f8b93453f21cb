/**
 What the normal form of a schema means, keyword by keyword: which schemas it identifies, and what a schema that holds
 one keyword accepts.
 */
module SchemaMeaning {
  import opened Wrappers
  import opened SchemaModel
  import opened SchemaAlgebra
  import opened SchemaOrder
  import opened SchemaAcceptance

  // ------------------------------------------------------------------ schemas that say the same

  const NAMED: set<Text> := {PropertiesKey, PatternProperties, Defs, Definitions, DependentSchemas}
  const NESTED: set<Text> :=
    {Items, Contains, Not, If, Then, Else, PropertyNames, AdditionalProperties, UnevaluatedProperties}
  const LISTED: set<Text> := {AllOf, AnyOf, OneOf, PrefixItems}

  /** The keyword is there and is not a display text or an empty `required`. */
  predicate Says(m: map<Text, Json>, key: Text) {
    key in m && key != Title && key != Description && !(key == RequiredKey && m[key] == Arr([]))
  }

  /** Equal up to display texts, empty `required` and the order of `required` and `enum`, at every depth keywords reach. */
  ghost predicate Akin(a: Json, b: Json)
    decreases a, 0
  {
    if a.Obj? && b.Obj? then
      (forall k :: Says(a.fields, k) <==> Says(b.fields, k)) &&
      forall k :: k in a.fields && Says(a.fields, k) && Says(b.fields, k) ==> AkinValue(k, a.fields[k], b.fields[k])
    else a == b
  }

  ghost predicate AkinValue(key: Text, x: Json, y: Json)
    decreases x, 1
  {
    if key in NESTED then Akin(x, y)
    else if key in NAMED && x.Obj? && y.Obj? then
      x.fields.Keys == y.fields.Keys && forall n :: n in x.fields && n in y.fields ==> Akin(x.fields[n], y.fields[n])
    else if key in LISTED && x.Arr? && y.Arr? then
      |x.items| == |y.items| && forall i :: 0 <= i < |x.items| && i < |y.items| ==> Akin(x.items[i], y.items[i])
    else if (key == RequiredKey || key == EnumKey) && x.Arr? && y.Arr? then multiset(x.items) == multiset(y.items)
    else x == y
  }

  lemma SaysKept(leq: Order, s: Json, k: Text)
    requires s.Obj?
    ensures k in Sem(leq, s).fields <==> Says(s.fields, k)
    ensures Says(s.fields, k) ==> Sem(leq, s).fields[k] == SemValue(leq, k, s.fields[k])
  {
  }

  lemma SemIsObject(leq: Order, s: Json)
    ensures Sem(leq, s).Obj? <==> s.Obj?
    ensures !s.Obj? ==> Sem(leq, s) == s
  {
  }

  lemma {:induction false} NamedAkin(leq: Order, key: Text, x: Json, y: Json)
    requires TotalOrder(leq) && key in NAMED && x.Obj? && y.Obj?
    ensures AkinValue(key, x, y) <==> SemValue(leq, key, x) == SemValue(leq, key, y)
    decreases x, 1
  {
    var (sx, sy) := (SemValue(leq, key, x), SemValue(leq, key, y));
    assert sx.Obj? && sy.Obj? && sx.fields.Keys == x.fields.Keys && sy.fields.Keys == y.fields.Keys;
    forall n | n in x.fields && n in y.fields ensures Akin(x.fields[n], y.fields[n]) <==> sx.fields[n] == sy.fields[n] {
      AkinIsSameForm(leq, x.fields[n], y.fields[n]);
    }
    if AkinValue(key, x, y) { assert sx.fields == sy.fields; }
  }

  lemma ListedForm(leq: Order, key: Text, x: Json)
    requires key in LISTED && x.Arr?
    ensures var sx := SemValue(leq, key, x);
      sx.Arr? && |sx.items| == |x.items| && forall i :: 0 <= i < |x.items| ==> sx.items[i] == Sem(leq, x.items[i])
  {
    assert ShapeOf(key) == SchemaList;
  }

  lemma ListedMeans(key: Text, x: Json, y: Json)
    requires key in LISTED && x.Arr? && y.Arr?
    ensures AkinValue(key, x, y) <==>
      |x.items| == |y.items| && forall i :: 0 <= i < |x.items| && i < |y.items| ==> Akin(x.items[i], y.items[i])
  {
    assert key !in NESTED && key !in NAMED;
  }

  lemma {:induction false} ListedAkin(leq: Order, key: Text, x: Json, y: Json)
    requires TotalOrder(leq) && key in LISTED && x.Arr? && y.Arr?
    ensures AkinValue(key, x, y) <==> SemValue(leq, key, x) == SemValue(leq, key, y)
    decreases x, 1
  {
    ListedForm(leq, key, x);
    ListedForm(leq, key, y);
    ListedMeans(key, x, y);
    var (sx, sy) := (SemValue(leq, key, x), SemValue(leq, key, y));
    forall i | 0 <= i < |x.items| && i < |y.items| ensures Akin(x.items[i], y.items[i]) <==> sx.items[i] == sy.items[i] {
      AkinIsSameForm(leq, x.items[i], y.items[i]);
    }
    if |x.items| == |y.items| && forall i :: 0 <= i < |x.items| && i < |y.items| ==> Akin(x.items[i], y.items[i]) {
      assert sx.items == sy.items;
    }
  }

  lemma SortSame(leq: Order, xs: seq<Json>, ys: seq<Json>)
    requires TotalOrder(leq)
    ensures Sort(leq, xs) == Sort(leq, ys) <==> multiset(xs) == multiset(ys)
  {
    if multiset(xs) == multiset(ys) { SortByBag(leq, xs, ys); }
    assert multiset(Sort(leq, xs)) == multiset(xs) && multiset(Sort(leq, ys)) == multiset(ys);
  }

  lemma UnorderedForm(leq: Order, key: Text, x: Json)
    requires (key.RequiredKey? || key.EnumKey?) && x.Arr?
    ensures SemValue(leq, key, x) == Arr(Sort(leq, x.items))
  {
    assert ShapeOf(key) == Unordered;
  }

  lemma UnorderedMeans(key: Text, x: Json, y: Json)
    requires (key == RequiredKey || key == EnumKey) && x.Arr? && y.Arr?
    ensures AkinValue(key, x, y) <==> multiset(x.items) == multiset(y.items)
  {
    assert key !in NESTED && key !in NAMED && key !in LISTED;
  }

  lemma UnorderedAkin(leq: Order, key: Text, x: Json, y: Json)
    requires TotalOrder(leq) && (key == RequiredKey || key == EnumKey) && x.Arr? && y.Arr?
    ensures AkinValue(key, x, y) <==> SemValue(leq, key, x) == SemValue(leq, key, y)
  {
    UnorderedForm(leq, key, x);
    UnorderedForm(leq, key, y);
    SortSame(leq, x.items, y.items);
    UnorderedMeans(key, x, y);
  }

  /** What the normal form keeps of a value it does not descend into. */
  lemma OtherAkin(leq: Order, key: Text, x: Json, y: Json)
    requires key !in NESTED && !(key in NAMED && x.Obj? && y.Obj?) && !(key in LISTED && x.Arr? && y.Arr?)
    requires !((key == RequiredKey || key == EnumKey) && x.Arr? && y.Arr?)
    ensures AkinValue(key, x, y) <==> SemValue(leq, key, x) == SemValue(leq, key, y)
  {
  }

  lemma {:induction false} AkinValueIsSameForm(leq: Order, key: Text, x: Json, y: Json)
    requires TotalOrder(leq)
    ensures AkinValue(key, x, y) <==> SemValue(leq, key, x) == SemValue(leq, key, y)
    decreases x, 2
  {
    if key in NESTED {
      AkinIsSameForm(leq, x, y);
    } else if key in NAMED && x.Obj? && y.Obj? {
      NamedAkin(leq, key, x, y);
    } else if key in LISTED && x.Arr? && y.Arr? {
      ListedAkin(leq, key, x, y);
    } else if (key == RequiredKey || key == EnumKey) && x.Arr? && y.Arr? {
      UnorderedAkin(leq, key, x, y);
    } else {
      OtherAkin(leq, key, x, y);
    }
  }

  /** Main result: two schemas have the same normal form exactly when they say the same. */
  lemma {:induction false} AkinIsSameForm(leq: Order, a: Json, b: Json)
    requires TotalOrder(leq)
    ensures Akin(a, b) <==> Sem(leq, a) == Sem(leq, b)
    decreases a, 0
  {
    SemIsObject(leq, a);
    SemIsObject(leq, b);
    if a.Obj? && b.Obj? {
      var (sa, sb) := (Sem(leq, a).fields, Sem(leq, b).fields);
      forall k
        ensures (k in sa <==> Says(a.fields, k)) && (k in sb <==> Says(b.fields, k))
        ensures Says(a.fields, k) && Says(b.fields, k) ==> (AkinValue(k, a.fields[k], b.fields[k]) <==> sa[k] == sb[k])
      {
        SaysKept(leq, a, k);
        SaysKept(leq, b, k);
        if Says(a.fields, k) && Says(b.fields, k) { AkinValueIsSameForm(leq, k, a.fields[k], b.fields[k]); }
      }
      if Akin(a, b) { assert sa == sb; }
    }
  }

  // ------------------------------------------------------------------ when schemas that say the same merge

  /** Every level the merge descends to has a readable `required` and readable `properties`. */
  ghost predicate Readable(s: Json)
    decreases s
  {
    s.Obj? ==>
      RequiredSet(s.fields).Some? && (PropertiesKey in s.fields ==> s.fields[PropertiesKey].Obj?) &&
      (PropertiesKey in s.fields ==>
        forall n :: n in s.fields[PropertiesKey].fields ==> Readable(s.fields[PropertiesKey].fields[n]))
  }

  lemma AkinProps(a: Json, b: Json, n: Text)
    requires a.Obj? && b.Obj? && Akin(a, b) && Props(a.fields).Some? && Props(b.fields).Some?
    ensures n in Props(a.fields).value <==> n in Props(b.fields).value
    ensures n in Props(a.fields).value ==> Akin(Props(a.fields).value[n], Props(b.fields).value[n])
  {
    assert Says(a.fields, PropertiesKey) <==> Says(b.fields, PropertiesKey);
    if PropertiesKey in a.fields {
      assert AkinValue(PropertiesKey, a.fields[PropertiesKey], b.fields[PropertiesKey]);
    }
  }

  lemma AkinGuards(leq: Order, a: Json, b: Json)
    requires TotalOrder(leq) && a.Obj? && b.Obj? && Akin(a, b)
    ensures Guards(leq, a, b) <==>
      RequiredSet(a.fields).Some? && (PropertiesKey in a.fields ==> a.fields[PropertiesKey].Obj?)
  {
    AkinIsSameForm(leq, a, b);
    PartsFromSem(leq, a, b);
    RequiredFromForm(leq, a.fields, b.fields);
  }

  lemma {:induction false} BothAkin(leq: Order, name: Text, x: Json, y: Json)
    requires TotalOrder(leq) && Akin(x, y)
    ensures MergeBoth(leq, name, x, y).Some? <==> Readable(x)
    decreases x, 1
  {
    if x.Obj? && y.Obj? { AkinMerge(leq, x, y); }
  }

  /** Main result: schemas that say the same merge, exactly when they can be read at all. */
  lemma {:induction false} AkinMerge(leq: Order, a: Json, b: Json)
    requires TotalOrder(leq) && a.Obj? && b.Obj? && Akin(a, b)
    ensures Merge(leq, a, b).Some? <==> Readable(a)
    decreases a, 0
  {
    MergeDefined(leq, a, b);
    AkinGuards(leq, a, b);
    if Guards(leq, a, b) {
      var (pa, pb) := (Props(a.fields).value, Props(b.fields).value);
      forall n ensures JoinAt(leq, a, b, n).Fail? <==> n in pa && !Readable(pa[n]) {
        AkinProps(a, b, n);
        if n in pa { BothAkin(leq, n, pa[n], pb[n]); }
      }
    }
  }

  // ------------------------------------------------------------------ what a schema of one keyword accepts

  function Only(key: Text, value: Json): Json { Obj(map[key := value]) }

  lemma OnlyKeyword(v: Vocabulary, key: Text, value: Json, x: Json)
    ensures Accepts(v, Only(key, value), x) <==> Keyword(v, key, value, Around(v, Only(key, value), x), x)
  {
    var s := Only(key, value);
    assert forall k :: k in s.fields <==> k == key;
    assert s.fields[key] == value;
  }

  lemma EnumMeans(v: Vocabulary, items: seq<Json>, x: Json)
    ensures Accepts(v, Only(EnumKey, Arr(items)), x) <==> x in items
  {
    OnlyKeyword(v, EnumKey, Arr(items), x);
  }

  lemma RequiredMeans(v: Vocabulary, names: seq<Json>, x: Json)
    ensures Accepts(v, Only(RequiredKey, Arr(names)), x) <==> (x.Obj? ==> forall n :: Str(n) in names ==> n in x.fields)
  {
    OnlyKeyword(v, RequiredKey, Arr(names), x);
    if x.Obj? && forall n :: Str(n) in names ==> n in x.fields {
      forall y: Json | y in names && y.Str? ensures y.text in x.fields { assert Str(y.text) in names; }
    }
  }

  lemma PropertiesMean(v: Vocabulary, props: map<Text, Json>, x: Json)
    ensures Accepts(v, Only(PropertiesKey, Obj(props)), x) <==>
      (x.Obj? ==> forall n :: n in props && n in x.fields ==> Accepts(v, props[n], x.fields[n]))
  {
    OnlyKeyword(v, PropertiesKey, Obj(props), x);
  }

  lemma PatternPropertiesMean(v: Vocabulary, props: map<Text, Json>, x: Json)
    ensures Accepts(v, Only(PatternProperties, Obj(props)), x) <==>
      (x.Obj? ==> forall p, n :: p in props && n in x.fields && v.matches(p, n) ==> Accepts(v, props[p], x.fields[n]))
  {
    OnlyKeyword(v, PatternProperties, Obj(props), x);
  }

  lemma DependentSchemasMean(v: Vocabulary, props: map<Text, Json>, x: Json)
    ensures Accepts(v, Only(DependentSchemas, Obj(props)), x) <==>
      (x.Obj? ==> forall n :: n in props && n in x.fields ==> Accepts(v, props[n], x))
  {
    OnlyKeyword(v, DependentSchemas, Obj(props), x);
  }

  lemma DefinitionsMean(v: Vocabulary, key: Text, props: map<Text, Json>, x: Json)
    requires key == Defs || key == Definitions
    ensures Accepts(v, Only(key, Obj(props)), x)
  {
    OnlyKeyword(v, key, Obj(props), x);
  }

  lemma ItemsMean(v: Vocabulary, s: Json, x: Json)
    ensures Accepts(v, Only(Items, s), x) <==> (x.Arr? ==> forall i :: 0 <= i < |x.items| ==> Accepts(v, s, x.items[i]))
  {
    OnlyKeyword(v, Items, s, x);
  }

  /** One hit is enough, and one is needed. */
  lemma ContainsMeans(v: Vocabulary, s: Json, x: Json)
    ensures Accepts(v, Only(Contains, s), x) <==> (x.Arr? ==> exists i :: 0 <= i < |x.items| && Accepts(v, s, x.items[i]))
  {
    OnlyKeyword(v, Contains, s, x);
    if x.Arr? {
      var accepts := y => Accepts(v, s, y);
      var hits := set i | 0 <= i < |x.items| && accepts(x.items[i]);
      assert 1 <= |hits| <==> hits != {};
      forall i | 0 <= i < |x.items| && Accepts(v, s, x.items[i]) ensures i in hits { assert accepts(x.items[i]); }
      if hits != {} {
        var i :| i in hits;
        assert accepts(x.items[i]);
      }
    }
  }

  lemma NotMeans(v: Vocabulary, s: Json, x: Json)
    ensures Accepts(v, Only(Not, s), x) <==> !Accepts(v, s, x)
  {
    OnlyKeyword(v, Not, s, x);
  }

  lemma PropertyNamesMean(v: Vocabulary, s: Json, x: Json)
    ensures Accepts(v, Only(PropertyNames, s), x) <==> (x.Obj? ==> forall n :: n in x.fields ==> Accepts(v, s, Str(n)))
  {
    OnlyKeyword(v, PropertyNames, s, x);
  }

  lemma AdditionalPropertiesMean(v: Vocabulary, s: Json, x: Json)
    ensures Accepts(v, Only(AdditionalProperties, s), x) <==> (x.Obj? ==> forall n :: n in x.fields ==> Accepts(v, s, x.fields[n]))
  {
    OnlyKeyword(v, AdditionalProperties, s, x);
  }

  function Conditional(c: Json, t: Json, e: Json): Json { Obj(map[If := c, Then := t, Else := e]) }

  lemma ThreeKeywords(v: Vocabulary, c: Json, t: Json, e: Json, x: Json)
    ensures var near := Around(v, Conditional(c, t, e), x);
      Accepts(v, Conditional(c, t, e), x) <==> Keyword(v, If, c, near, x) && Keyword(v, Then, t, near, x) && Keyword(v, Else, e, near, x)
  {
    var s := Conditional(c, t, e);
    assert forall k :: k in s.fields <==> k == If || k == Then || k == Else;
    assert s.fields[If] == c && s.fields[Then] == t && s.fields[Else] == e;
  }

  lemma BranchMeans(v: Vocabulary, key: Text, value: Json, near: Siblings, x: Json)
    requires key.If? || key.Then? || key.Else?
    ensures Keyword(v, key, value, near, x) <==>
      (key.Then? && near.condition == Some(true) ==> Accepts(v, value, x)) &&
      (key.Else? && near.condition == Some(false) ==> Accepts(v, value, x))
  {
    assert ShapeOf(key) == OneSchema;
  }

  /** A condition with its two branches. */
  lemma ConditionMeans(v: Vocabulary, c: Json, t: Json, e: Json, x: Json)
    ensures Accepts(v, Conditional(c, t, e), x) <==> if Accepts(v, c, x) then Accepts(v, t, x) else Accepts(v, e, x)
  {
    ThreeKeywords(v, c, t, e, x);
    var s := Conditional(c, t, e);
    assert s.fields[If] == c;
    var near := Around(v, s, x);
    BranchMeans(v, If, c, near, x);
    BranchMeans(v, Then, t, near, x);
    BranchMeans(v, Else, e, near, x);
  }

  lemma PrefixItemsMean(v: Vocabulary, list: seq<Json>, x: Json)
    ensures Accepts(v, Only(PrefixItems, Arr(list)), x) <==>
      (x.Arr? ==> forall i :: 0 <= i < |list| && i < |x.items| ==> Accepts(v, list[i], x.items[i]))
  {
    OnlyKeyword(v, PrefixItems, Arr(list), x);
  }

  /** What a list of schemas accepts, by position. */
  ghost function Each(v: Vocabulary, list: seq<Json>): (int, Json) -> bool {
    (i: int, y) => 0 <= i < |list| && Accepts(v, list[i], y)
  }

  lemma ListKeyword(v: Vocabulary, key: Text, list: seq<Json>, x: Json)
    requires key in LISTED
    ensures Accepts(v, Only(key, Arr(list)), x) <==> ListMeaning(key, |list|, Each(v, list), x)
  {
    OnlyKeyword(v, key, Arr(list), x);
    var value := Arr(list);
    ListMeaningSame(key, |list|, (i: int, y) => 0 <= i < |value.items| && Accepts(v, value.items[i], y), Each(v, list), x);
  }

  lemma AllOfMeans(v: Vocabulary, list: seq<Json>, x: Json)
    ensures Accepts(v, Only(AllOf, Arr(list)), x) <==> forall i :: 0 <= i < |list| ==> Accepts(v, list[i], x)
  {
    ListKeyword(v, AllOf, list, x);
    assert forall i :: 0 <= i < |list| ==> Each(v, list)(i, x) == Accepts(v, list[i], x);
  }

  lemma AnyOfMeans(v: Vocabulary, list: seq<Json>, x: Json)
    ensures Accepts(v, Only(AnyOf, Arr(list)), x) <==> exists i :: 0 <= i < |list| && Accepts(v, list[i], x)
  {
    ListKeyword(v, AnyOf, list, x);
    assert forall i :: 0 <= i < |list| ==> Each(v, list)(i, x) == Accepts(v, list[i], x);
  }

  ghost predicate OneHit(v: Vocabulary, list: seq<Json>, x: Json, i: nat)
    requires i < |list|
  {
    Accepts(v, list[i], x) && forall j :: 0 <= j < |list| && j != i ==> !Accepts(v, list[j], x)
  }

  /** Exactly one of the listed schemas accepts. */
  lemma OneOfMeans(v: Vocabulary, list: seq<Json>, x: Json)
    ensures Accepts(v, Only(OneOf, Arr(list)), x) <==> exists i :: 0 <= i < |list| && OneHit(v, list, x, i)
  {
    ListKeyword(v, OneOf, list, x);
    var accepts := Each(v, list);
    var hits := set i | 0 <= i < |list| && accepts(i, x);
    assert ListMeaning(OneOf, |list|, accepts, x) <==> |hits| == 1;
    if |hits| == 1 {
      var i :| i in hits;
      OnlyMember(hits, i);
      forall j | 0 <= j < |list| && j != i ensures !Accepts(v, list[j], x) { assert j !in hits; }
      assert OneHit(v, list, x, i);
    }
    if i :| 0 <= i < |list| && OneHit(v, list, x, i) {
      forall j ensures j in hits <==> j == i { }
      assert hits == {i};
    }
  }

  lemma OnlyMember(s: set<int>, i: int)
    requires |s| == 1 && i in s
    ensures s == {i}
  {
    assert |s - {i}| == 0;
    assert s == {i} + (s - {i});
  }

  // ------------------------------------------------------------------ keywords that look at their neighbours

  lemma AcceptsMeans(v: Vocabulary, s: Json, x: Json)
    requires s.Obj?
    ensures Accepts(v, s, x) <==> AllJudge(v, s, Around(v, s, x), x)
  {
  }

  function Pair(k1: Text, v1: Json, k2: Text, v2: Json): (s: Json)
    requires k1 != k2
    ensures s.Obj? && s.fields.Keys == {k1, k2} && s.fields[k1] == v1 && s.fields[k2] == v2
  {
    Obj(map[k1 := v1, k2 := v2])
  }

  ghost predicate BothJudge(v: Vocabulary, k1: Text, v1: Json, k2: Text, v2: Json, near: Siblings, x: Json) {
    Keyword(v, k1, v1, near, x) && Keyword(v, k2, v2, near, x)
  }

  ghost predicate AllJudge(v: Vocabulary, s: Json, near: Siblings, x: Json)
    requires s.Obj?
  {
    forall k :: k in s.fields ==> Keyword(v, k, s.fields[k], near, x)
  }

  lemma JudgedBy(v: Vocabulary, s: Json, near: Siblings, x: Json, k: Text)
    requires s.Obj? && AllJudge(v, s, near, x) && k in s.fields
    ensures Keyword(v, k, s.fields[k], near, x)
  {
  }

  lemma BothSuffice(v: Vocabulary, s: Json, near: Siblings, x: Json, k1: Text, k2: Text)
    requires s.Obj? && s.fields.Keys == {k1, k2} && BothJudge(v, k1, s.fields[k1], k2, s.fields[k2], near, x)
    ensures AllJudge(v, s, near, x)
  {
    forall k | k in s.fields ensures Keyword(v, k, s.fields[k], near, x) {
      if k != k1 { assert k == k2; }
    }
  }

  lemma EachJudges(v: Vocabulary, s: Json, near: Siblings, x: Json, k1: Text, k2: Text)
    requires s.Obj? && s.fields.Keys == {k1, k2}
    ensures AllJudge(v, s, near, x) <==> BothJudge(v, k1, s.fields[k1], k2, s.fields[k2], near, x)
  {
    if AllJudge(v, s, near, x) {
      JudgedBy(v, s, near, x, k1);
      JudgedBy(v, s, near, x, k2);
    }
    if BothJudge(v, k1, s.fields[k1], k2, s.fields[k2], near, x) { BothSuffice(v, s, near, x, k1, k2); }
  }

  lemma TwoKeywords(v: Vocabulary, k1: Text, v1: Json, k2: Text, v2: Json, x: Json)
    requires k1 != k2
    ensures var s := Pair(k1, v1, k2, v2); Accepts(v, s, x) <==> BothJudge(v, k1, v1, k2, v2, Around(v, s, x), x)
  {
    var s := Pair(k1, v1, k2, v2);
    AcceptsMeans(v, s, x);
    EachJudges(v, s, Around(v, s, x), x, k1, k2);
  }

  /** `items` is about what the prefix leaves. */
  lemma ItemsAfterPrefix(v: Vocabulary, list: seq<Json>, s: Json, x: Json)
    ensures Accepts(v, Pair(PrefixItems, Arr(list), Items, s), x) <==>
      (x.Arr? ==> forall i :: 0 <= i < |x.items| ==> Accepts(v, if i < |list| then list[i] else s, x.items[i]))
  {
    TwoKeywords(v, PrefixItems, Arr(list), Items, s, x);
    var t := Pair(PrefixItems, Arr(list), Items, s);
    var near := Around(v, t, x);
    assert t.fields[PrefixItems] == Arr(list);
    assert near.prefix == |list|;
    PrefixAt(v, list, near, x);
    ItemsAt(v, s, near, x);
  }

  lemma PrefixAt(v: Vocabulary, list: seq<Json>, near: Siblings, x: Json)
    ensures Keyword(v, PrefixItems, Arr(list), near, x) <==>
      (x.Arr? ==> forall i :: 0 <= i < |list| && i < |x.items| ==> Accepts(v, list[i], x.items[i]))
  {
  }

  lemma ItemsAt(v: Vocabulary, s: Json, near: Siblings, x: Json)
    ensures Keyword(v, Items, s, near, x) <==> (x.Arr? ==> forall i :: near.prefix <= i < |x.items| ==> Accepts(v, s, x.items[i]))
  {
  }

  /** `additionalProperties` is about members that `properties` does not name. */
  lemma AdditionalAfterProperties(v: Vocabulary, props: map<Text, Json>, s: Json, x: Json)
    ensures Accepts(v, Pair(PropertiesKey, Obj(props), AdditionalProperties, s), x) <==>
      (x.Obj? ==> forall n :: n in x.fields ==> Accepts(v, if n in props then props[n] else s, x.fields[n]))
  {
    TwoKeywords(v, PropertiesKey, Obj(props), AdditionalProperties, s, x);
    var t := Pair(PropertiesKey, Obj(props), AdditionalProperties, s);
    var near := Around(v, t, x);
    assert t.fields[PropertiesKey] == Obj(props);
    assert near.declared == props.Keys && near.patterns == {};
    PropertiesAt(v, props, near, x);
    AdditionalAt(v, s, near, x);
    forall n ensures Additional(v, near, n) <==> n !in props { }
  }

  lemma PropertiesAt(v: Vocabulary, props: map<Text, Json>, near: Siblings, x: Json)
    ensures Keyword(v, PropertiesKey, Obj(props), near, x) <==>
      (x.Obj? ==> forall n :: n in props && n in x.fields ==> Accepts(v, props[n], x.fields[n]))
  {
  }

  lemma AdditionalAt(v: Vocabulary, s: Json, near: Siblings, x: Json)
    ensures Keyword(v, AdditionalProperties, s, near, x) <==>
      (x.Obj? ==> forall n :: n in x.fields && Additional(v, near, n) ==> Accepts(v, s, x.fields[n]))
  {
  }

  // ------------------------------------------------------------------ when two schemas merge, and into what

  /** `required` is absent or a list of strings. */
  predicate NamesReadable(m: map<Text, Json>) {
    RequiredKey in m ==> m[RequiredKey].Arr? && forall y :: y in m[RequiredKey].items ==> y.Str?
  }

  predicate Requires(m: map<Text, Json>, name: Text) {
    RequiredKey in m && m[RequiredKey].Arr? && Str(name) in m[RequiredKey].items
  }

  predicate PropsReadable(m: map<Text, Json>) { PropertiesKey in m ==> m[PropertiesKey].Obj? }

  predicate HasProp(m: map<Text, Json>, name: Text) {
    PropertiesKey in m && m[PropertiesKey].Obj? && name in m[PropertiesKey].fields
  }

  function PropOf(m: map<Text, Json>, name: Text): Json
    requires HasProp(m, name)
  {
    m[PropertiesKey].fields[name]
  }

  /** Keywords that the merge does not treat by themselves. */
  predicate Ordinary(key: Text) { key != Title && key != Description && key != RequiredKey && key != PropertiesKey }

  ghost predicate OrdinaryAgree(a: map<Text, Json>, b: map<Text, Json>) {
    forall k :: Ordinary(k) ==> (k in a <==> k in b) && (k in a && k in b ==> AkinValue(k, a[k], b[k]))
  }

  /**
   The same names required, all ordinary keywords alike, and every property mergeable: on both sides with mergeable schemas, or,
   where one is no object, with values that mean the same under its name, or on one side only and not required.
   */
  ghost predicate Mergeable(a: Json, b: Json)
    decreases a, 1
  {
    a.Obj? && b.Obj? && SamePlan(a.fields, b.fields) && forall n :: Fits(a, b, n)
  }

  /** Readable on both sides, the same names required, and all ordinary keywords alike. */
  ghost predicate SamePlan(a: map<Text, Json>, b: map<Text, Json>) {
    NamesReadable(a) && NamesReadable(b) && PropsReadable(a) && PropsReadable(b) &&
    (forall n :: Requires(a, n) <==> Requires(b, n)) && OrdinaryAgree(a, b)
  }

  /** This property name does not stand in the way. */
  ghost predicate Fits(a: Json, b: Json, n: Text)
    requires a.Obj? && b.Obj?
    decreases a, 0
  {
    (HasProp(a.fields, n) && !HasProp(b.fields, n) ==> !Requires(a.fields, n)) &&
    (HasProp(b.fields, n) && !HasProp(a.fields, n) ==> !Requires(a.fields, n)) &&
    (HasProp(a.fields, n) && HasProp(b.fields, n) ==>
      BothMergeable(n, a.fields[PropertiesKey].fields[n], b.fields[PropertiesKey].fields[n]))
  }

  ghost predicate BothMergeable(name: Text, x: Json, y: Json)
    decreases x, 2
  {
    if x.Obj? && y.Obj? then Mergeable(x, y) else AkinValue(name, x, y)
  }

  lemma NamesMean(m: map<Text, Json>)
    ensures RequiredSet(m).Some? <==> NamesReadable(m)
    ensures RequiredSet(m).Some? ==> forall n :: n in RequiredSet(m).value <==> Requires(m, n)
  {
    if RequiredKey in m && m[RequiredKey].Arr? {
      var items := m[RequiredKey].items;
      if forall y :: y in items ==> y.Str? { forall i | 0 <= i < |items| ensures items[i].Str? { assert items[i] in items; } }
      if AllTexts(items) { TextsAreItems(items); }
    }
  }

  lemma PropsMean(m: map<Text, Json>, n: Text)
    ensures Props(m).Some? <==> PropsReadable(m)
    ensures Props(m).Some? ==> (n in Props(m).value <==> HasProp(m, n)) && (HasProp(m, n) ==> Props(m).value[n] == PropOf(m, n))
  {
  }

  lemma OrdinaryMean(leq: Order, a: map<Text, Json>, b: map<Text, Json>)
    requires TotalOrder(leq)
    ensures OthersAgree(leq, a, b) <==> OrdinaryAgree(a, b)
  {
    forall k | Ordinary(k) && k in a && k in b
      ensures AkinValue(k, a[k], b[k]) <==> SemValue(leq, k, a[k]) == SemValue(leq, k, b[k])
    {
      AkinValueIsSameForm(leq, k, a[k], b[k]);
    }
  }

  lemma SameNames(a: map<Text, Json>, b: map<Text, Json>)
    requires NamesReadable(a) && NamesReadable(b)
    ensures RequiredSet(a) == RequiredSet(b) <==> forall n :: Requires(a, n) <==> Requires(b, n)
  {
    NamesMean(a);
    NamesMean(b);
    var (xs, ys) := (RequiredSet(a).value, RequiredSet(b).value);
    if forall n :: Requires(a, n) <==> Requires(b, n) {
      assert forall n :: n in xs <==> n in ys;
      assert xs == ys;
    }
  }

  lemma GuardsMean(leq: Order, a: Json, b: Json)
    requires TotalOrder(leq) && a.Obj? && b.Obj?
    ensures Guards(leq, a, b) <==> SamePlan(a.fields, b.fields)
  {
    NamesMean(a.fields);
    NamesMean(b.fields);
    PropsMean(a.fields, Title);
    PropsMean(b.fields, Title);
    OrdinaryMean(leq, a.fields, b.fields);
    if NamesReadable(a.fields) && NamesReadable(b.fields) { SameNames(a.fields, b.fields); }
  }

  lemma {:induction false} BothMergeExactly(leq: Order, name: Text, x: Json, y: Json)
    requires TotalOrder(leq)
    ensures MergeBoth(leq, name, x, y).Some? <==> BothMergeable(name, x, y)
    decreases x, 2
  {
    if x.Obj? && y.Obj? { MergeExactly(leq, x, y); } else { AkinValueIsSameForm(leq, name, x, y); }
  }

  lemma {:induction false} JoinExactly(leq: Order, a: Json, b: Json, n: Text)
    requires TotalOrder(leq) && a.Obj? && b.Obj? && Guards(leq, a, b)
    ensures JoinAt(leq, a, b, n).Fail? <==> !Fits(a, b, n)
    decreases a, 0
  {
    NamesMean(a.fields);
    PropsMean(a.fields, n);
    PropsMean(b.fields, n);
    if HasProp(a.fields, n) && HasProp(b.fields, n) { BothMergeExactly(leq, n, PropOf(a.fields, n), PropOf(b.fields, n)); }
  }

  /** Main result: two schemas merge exactly when they are mergeable, whatever order sorts their values. */
  lemma {:induction false} MergeExactly(leq: Order, a: Json, b: Json)
    requires TotalOrder(leq) && a.Obj? && b.Obj?
    ensures Merge(leq, a, b).Some? <==> Mergeable(a, b)
    decreases a, 1
  {
    MergeDefined(leq, a, b);
    GuardsMean(leq, a, b);
    if Guards(leq, a, b) {
      forall n ensures JoinAt(leq, a, b, n).Fail? <==> !Fits(a, b, n) { JoinExactly(leq, a, b, n); }
    }
  }

  /** What is merged of one property. */
  ghost predicate MergedProp(leq: Order, a: map<Text, Json>, b: map<Text, Json>, n: Text, v: Json) {
    if HasProp(a, n) && HasProp(b, n) then
      if PropOf(a, n).Obj? && PropOf(b, n).Obj? then Merge(leq, PropOf(a, n), PropOf(b, n)) == Some(v) else v == PropOf(a, n)
    else if HasProp(a, n) then v == PropOf(a, n)
    else HasProp(b, n) && v == PropOf(b, n)
  }

  lemma JoinedProp(leq: Order, a: Json, b: Json, n: Text)
    requires a.Obj? && b.Obj? && Guards(leq, a, b) && !JoinAt(leq, a, b, n).Fail?
    ensures JoinAt(leq, a, b, n).Present? <==> HasProp(a.fields, n) || HasProp(b.fields, n)
    ensures JoinAt(leq, a, b, n).Present? ==> MergedProp(leq, a.fields, b.fields, n, JoinAt(leq, a, b, n).schema)
  {
    PropsMean(a.fields, n);
    PropsMean(b.fields, n);
  }

  lemma MergedPropExactly(leq: Order, a: Json, b: Json, n: Text)
    requires TotalOrder(leq) && a.Obj? && b.Obj? && Merge(leq, a, b).Some?
    ensures var m := Merge(leq, a, b).value;
      m.Obj? && (HasProp(m.fields, n) <==> HasProp(a.fields, n) || HasProp(b.fields, n)) &&
      (HasProp(m.fields, n) ==> MergedProp(leq, a.fields, b.fields, n, m.fields[PropertiesKey].fields[n]))
  {
    MergedProps(leq, a, b, n);
    JoinedProp(leq, a, b, n);
    PropsMean(Merge(leq, a, b).value.fields, n);
  }

  lemma MergedNamesExactly(leq: Order, a: Json, b: Json)
    requires TotalOrder(leq) && a.Obj? && b.Obj? && Merge(leq, a, b).Some?
    ensures var m := Merge(leq, a, b).value;
      m.Obj? && NamesReadable(m.fields) && forall n :: Requires(m.fields, n) <==> Requires(a.fields, n)
  {
    MergeViewed(leq, a, b);
    NamesMean(a.fields);
    NamesMean(Merge(leq, a, b).value.fields);
  }

  /** Main result: a merged schema requires the same names, keeps the first side's keywords, and has the properties of both. */
  lemma MergedExactly(leq: Order, a: Json, b: Json)
    requires TotalOrder(leq) && a.Obj? && b.Obj? && Merge(leq, a, b).Some?
    ensures var m := Merge(leq, a, b).value;
      m.Obj? && NamesReadable(m.fields) && (forall n :: Requires(m.fields, n) <==> Requires(a.fields, n)) &&
      (forall k :: Ordinary(k) ==> (k in m.fields <==> k in a.fields) && (k in m.fields && k in a.fields ==> m.fields[k] == a.fields[k])) &&
      (forall n :: HasProp(m.fields, n) <==> HasProp(a.fields, n) || HasProp(b.fields, n)) &&
      (forall n :: HasProp(m.fields, n) ==> MergedProp(leq, a.fields, b.fields, n, m.fields[PropertiesKey].fields[n]))
    ensures var m := Merge(leq, a, b).value.fields;
      forall k :: k == Title || k == Description ==>
        (k in m <==> k in a.fields || k in b.fields) &&
        (k in m ==> (k in a.fields && m[k] == a.fields[k]) || (k !in a.fields && k in b.fields && m[k] == b.fields[k]))
  {
    var m := Merge(leq, a, b).value;
    MergeViewed(leq, a, b);
    MergedNamesExactly(leq, a, b);
    forall n
      ensures HasProp(m.fields, n) <==> HasProp(a.fields, n) || HasProp(b.fields, n)
      ensures HasProp(m.fields, n) ==> MergedProp(leq, a.fields, b.fields, n, m.fields[PropertiesKey].fields[n])
    {
      MergedPropExactly(leq, a, b, n);
    }
    TitlesKept(leq, a, b);
  }

  lemma TitlesKept(leq: Order, a: Json, b: Json)
    requires a.Obj? && b.Obj? && Merge(leq, a, b).Some? && Merge(leq, a, b).value.Obj?
    ensures var m := Merge(leq, a, b).value.fields;
      forall k :: k == Title || k == Description ==>
        (k in m <==> k in a.fields || k in b.fields) &&
        (k in m ==> (k in a.fields && m[k] == a.fields[k]) || (k !in a.fields && k in b.fields && m[k] == b.fields[k]))
  {
  }
}
