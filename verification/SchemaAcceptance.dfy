/**
 Which values a JSON Schema accepts, after section 10.3.2 of JSON Schema Core 2020-12 and section 6.5.3 of
 JSON Schema Validation 2020-12, and what the normal form and the merge do to it.
 */
module SchemaAcceptance {
  import opened Wrappers
  import opened SchemaModel
  import opened SchemaAlgebra
  import opened SchemaOrder

  /** What the model leaves open: the remaining keywords and the pattern language. */
  datatype Vocabulary = Vocabulary(asserts: (Text, Json, Json) -> bool, matches: (Text, Text) -> bool)

  /** What a keyword sees of its neighbours. */
  datatype Siblings = Siblings(
    declared: set<Text>, patterns: set<Text>, prefix: nat, atLeast: int, atMost: Option<int>, condition: Option<bool>)

  function KeysAt(m: map<Text, Json>, key: Text): set<Text> {
    if key in m && m[key].Obj? then m[key].fields.Keys else {}
  }

  function PrefixLength(m: map<Text, Json>): nat {
    if PrefixItems in m && m[PrefixItems].Arr? then |m[PrefixItems].items| else 0
  }

  function AtLeast(m: map<Text, Json>): int {
    if MinContains in m && m[MinContains].Num? then m[MinContains].number else 1
  }

  function AtMost(m: map<Text, Json>): Option<int> {
    if MaxContains in m && m[MaxContains].Num? then Some(m[MaxContains].number) else None
  }

  ghost function Around(v: Vocabulary, s: Json, x: Json): Siblings
    requires s.Obj?
    decreases s, 0
  {
    Siblings(KeysAt(s.fields, PropertiesKey), KeysAt(s.fields, PatternProperties), PrefixLength(s.fields),
             AtLeast(s.fields), AtMost(s.fields), if If in s.fields then Some(Accepts(v, s.fields[If], x)) else None)
  }

  ghost predicate Accepts(v: Vocabulary, s: Json, x: Json)
    decreases s, 1
  {
    if s.Obj? then forall k :: k in s.fields ==> Keyword(v, k, s.fields[k], Around(v, s, x), x)
    else s.Bool? ==> s.value
  }

  /** One keyword of a schema object. */
  ghost predicate Keyword(v: Vocabulary, key: Text, value: Json, near: Siblings, x: Json)
    decreases value, 2
  {
    match ShapeOf(key)
    case OneSchema => OneMeaning(v, key, value, y => Accepts(v, value, y), near, x)
    case Schemas =>
      value.Obj? ==> NamedMeaning(v, key, value.fields.Keys, (n, y) => n in value.fields && Accepts(v, value.fields[n], y), x)
    case SchemaList =>
      value.Arr? ==> ListMeaning(key, |value.items|, (i: int, y) => 0 <= i < |value.items| && Accepts(v, value.items[i], y), x)
    case Unordered => value.Arr? ==> UnorderedMeaning(key, value.items, x)
    case Plain => PlainMeaning(v, key, value, x)
  }

  /** Keywords holding one schema, given what that schema accepts. */
  ghost predicate OneMeaning(v: Vocabulary, key: Text, value: Json, accepts: Json -> bool, near: Siblings, x: Json) {
    match key
    case If => true
    case Then => near.condition == Some(true) ==> accepts(x)
    case Else => near.condition == Some(false) ==> accepts(x)
    case Not => !accepts(x)
    case PropertyNames => x.Obj? ==> forall n :: n in x.fields ==> accepts(Str(n))
    case AdditionalProperties => x.Obj? ==> forall n :: n in x.fields && Additional(v, near, n) ==> accepts(x.fields[n])
    case Items => x.Arr? ==> forall i :: near.prefix <= i < |x.items| ==> accepts(x.items[i])
    case Contains =>
      x.Arr? ==>
        var hits := set i | 0 <= i < |x.items| && accepts(x.items[i]);
        near.atLeast <= |hits| && (near.atMost.Some? ==> |hits| <= near.atMost.value)
    case _ => v.asserts(key, value, x)
  }

  /** Keywords holding schemas under names. */
  ghost predicate NamedMeaning(v: Vocabulary, key: Text, names: set<Text>, accepts: (Text, Json) -> bool, x: Json) {
    match key
    case PropertiesKey => x.Obj? ==> forall n :: n in names && n in x.fields ==> accepts(n, x.fields[n])
    case PatternProperties =>
      x.Obj? ==> forall p, n :: p in names && n in x.fields && v.matches(p, n) ==> accepts(p, x.fields[n])
    case DependentSchemas => x.Obj? ==> forall n :: n in names && n in x.fields ==> accepts(n, x)
    case _ => true
  }

  /** Keywords holding a list of schemas. */
  ghost predicate ListMeaning(key: Text, length: nat, accepts: (int, Json) -> bool, x: Json) {
    match key
    case PrefixItems => x.Arr? ==> forall i :: 0 <= i < length && i < |x.items| ==> accepts(i, x.items[i])
    case AllOf => forall i :: 0 <= i < length ==> accepts(i, x)
    case AnyOf => exists i :: 0 <= i < length && accepts(i, x)
    case _ => |set i | 0 <= i < length && accepts(i, x)| == 1
  }

  ghost predicate UnorderedMeaning(key: Text, items: seq<Json>, x: Json) {
    if key.RequiredKey? then x.Obj? ==> forall y: Json :: y in items && y.Str? ==> y.text in x.fields
    else x in items
  }

  /** Display texts, definitions and the two bounds of `contains` assert nothing on their own. */
  predicate PlainMeaning(v: Vocabulary, key: Text, value: Json, x: Json) {
    match key
    case Title => true
    case Description => true
    case MinContains => true
    case MaxContains => true
    case TypeKey => if x.Obj? && value.Str? then value.text == ObjectName else v.asserts(TypeKey, value, x)
    case _ => v.asserts(key, value, x)
  }

  predicate Additional(v: Vocabulary, near: Siblings, n: Text) {
    n !in near.declared && forall p :: p in near.patterns ==> !v.matches(p, n)
  }

  /** The open keywords are judged by their normal form. */
  ghost predicate NormalVocabulary(leq: Order, v: Vocabulary) {
    forall value, x :: v.asserts(UnevaluatedProperties, Sem(leq, value), x) == v.asserts(UnevaluatedProperties, value, x)
  }

  // ------------------------------------------------------------------ normalising keeps acceptance

  lemma OneMeaningSame(leq: Order, v: Vocabulary, key: Text, value: Json, f: Json -> bool, g: Json -> bool, near: Siblings, x: Json)
    requires NormalVocabulary(leq, v) && ShapeOf(key).OneSchema? && forall y :: f(y) == g(y)
    ensures OneMeaning(v, key, Sem(leq, value), f, near, x) == OneMeaning(v, key, value, g, near, x)
  {
    if key.Contains? && x.Arr? {
      assert (set i | 0 <= i < |x.items| && f(x.items[i])) == (set i | 0 <= i < |x.items| && g(x.items[i]));
    }
  }

  lemma NamedMeaningSame(v: Vocabulary, key: Text, names: set<Text>, f: (Text, Json) -> bool, g: (Text, Json) -> bool, x: Json)
    requires forall n, y :: n in names ==> f(n, y) == g(n, y)
    ensures NamedMeaning(v, key, names, f, x) == NamedMeaning(v, key, names, g, x)
  {
  }

  lemma ListMeaningSame(key: Text, length: nat, f: (int, Json) -> bool, g: (int, Json) -> bool, x: Json)
    requires forall i, y :: 0 <= i < length ==> f(i, y) == g(i, y)
    ensures ListMeaning(key, length, f, x) == ListMeaning(key, length, g, x)
  {
    assert (set i | 0 <= i < length && f(i, x)) == (set i | 0 <= i < length && g(i, x));
  }

  lemma {:induction false} OneKept(leq: Order, v: Vocabulary, k: Text, value: Json, near: Siblings, x: Json)
    requires TotalOrder(leq) && NormalVocabulary(leq, v) && ShapeOf(k).OneSchema?
    ensures Keyword(v, k, Sem(leq, value), near, x) == Keyword(v, k, value, near, x)
    decreases value, 2
  {
    var t := Sem(leq, value);
    var (f, g) := (y => Accepts(v, t, y), y => Accepts(v, value, y));
    forall y ensures f(y) == g(y) { SemKeepsAcceptance(leq, v, value, y); }
    OneMeaningSame(leq, v, k, value, f, g, near, x);
  }

  lemma {:induction false} NamedKept(leq: Order, v: Vocabulary, k: Text, value: Json, near: Siblings, x: Json)
    requires TotalOrder(leq) && NormalVocabulary(leq, v) && ShapeOf(k).Schemas? && value.Obj?
    ensures Keyword(v, k, SemValue(leq, k, value), near, x) == Keyword(v, k, value, near, x)
    decreases value, 2
  {
    var t := SemValue(leq, k, value);
    var f := (n: Text, y: Json) => n in t.fields && Accepts(v, t.fields[n], y);
    var g := (n: Text, y: Json) => n in value.fields && Accepts(v, value.fields[n], y);
    assert t.fields.Keys == value.fields.Keys;
    forall n, y | n in value.fields.Keys ensures f(n, y) == g(n, y) { SemKeepsAcceptance(leq, v, value.fields[n], y); }
    NamedMeaningSame(v, k, value.fields.Keys, f, g, x);
  }

  lemma {:induction false} ListKept(leq: Order, v: Vocabulary, k: Text, value: Json, near: Siblings, x: Json)
    requires TotalOrder(leq) && NormalVocabulary(leq, v) && ShapeOf(k).SchemaList? && value.Arr?
    ensures Keyword(v, k, SemValue(leq, k, value), near, x) == Keyword(v, k, value, near, x)
    decreases value, 2
  {
    var t := SemValue(leq, k, value);
    var f := (i: int, y: Json) => 0 <= i < |t.items| && Accepts(v, t.items[i], y);
    var g := (i: int, y: Json) => 0 <= i < |value.items| && Accepts(v, value.items[i], y);
    forall i, y | 0 <= i < |value.items| ensures f(i, y) == g(i, y) { SemKeepsAcceptance(leq, v, value.items[i], y); }
    ListMeaningSame(k, |value.items|, f, g, x);
  }

  lemma {:induction false} KeywordKept(leq: Order, v: Vocabulary, k: Text, value: Json, near: Siblings, x: Json)
    requires TotalOrder(leq) && NormalVocabulary(leq, v)
    ensures Keyword(v, k, SemValue(leq, k, value), near, x) == Keyword(v, k, value, near, x)
    decreases value, 3
  {
    var shape := ShapeOf(k);
    if Untouched(shape, value) {
      UntouchedKept(leq, k, value);
    } else if shape.Unordered? {
      UnorderedKept(leq, v, k, value, near, x);
    } else if shape.OneSchema? {
      OneKept(leq, v, k, value, near, x);
    } else if shape.Schemas? {
      NamedKept(leq, v, k, value, near, x);
    } else {
      ListKept(leq, v, k, value, near, x);
    }
  }

  /** The normal form leaves such a value as it is. */
  predicate Untouched(shape: Shape, value: Json) {
    shape.Plain? || (shape.Schemas? && !value.Obj?) || (shape.SchemaList? && !value.Arr?)
  }

  lemma UntouchedKept(leq: Order, k: Text, value: Json)
    requires Untouched(ShapeOf(k), value)
    ensures SemValue(leq, k, value) == value
  {
  }

  lemma UnorderedKept(leq: Order, v: Vocabulary, k: Text, value: Json, near: Siblings, x: Json)
    requires ShapeOf(k).Unordered?
    ensures Keyword(v, k, SemValue(leq, k, value), near, x) == Keyword(v, k, value, near, x)
  {
    if value.Arr? { SortMembers(leq, value.items); }
  }

  lemma SemFields(leq: Order, s: Json, k: Text)
    requires s.Obj?
    ensures k in Sem(leq, s).fields <==> k in s.fields && !Dropped(k, s.fields[k])
    ensures k in Sem(leq, s).fields ==> Sem(leq, s).fields[k] == SemValue(leq, k, s.fields[k])
  {
  }

  lemma KeysSame(leq: Order, s: Json, key: Text)
    requires s.Obj? && ShapeOf(key).Schemas?
    ensures KeysAt(Sem(leq, s).fields, key) == KeysAt(s.fields, key)
  {
    SemFields(leq, s, key);
  }

  lemma BoundsSame(leq: Order, s: Json)
    requires s.Obj?
    ensures PrefixLength(Sem(leq, s).fields) == PrefixLength(s.fields)
    ensures AtLeast(Sem(leq, s).fields) == AtLeast(s.fields) && AtMost(Sem(leq, s).fields) == AtMost(s.fields)
  {
    SemFields(leq, s, PrefixItems);
    SemFields(leq, s, MinContains);
    SemFields(leq, s, MaxContains);
  }

  lemma {:induction false} SameAround(leq: Order, v: Vocabulary, s: Json, x: Json)
    requires TotalOrder(leq) && NormalVocabulary(leq, v) && s.Obj?
    ensures Around(v, Sem(leq, s), x) == Around(v, s, x)
    decreases s, 0
  {
    KeysSame(leq, s, PropertiesKey);
    KeysSame(leq, s, PatternProperties);
    BoundsSame(leq, s);
    SemFields(leq, s, If);
    if If in s.fields { SemKeepsAcceptance(leq, v, s.fields[If], x); }
  }

  lemma DroppedSaysNothing(v: Vocabulary, k: Text, value: Json, near: Siblings, x: Json)
    requires Dropped(k, value)
    ensures Keyword(v, k, value, near, x)
  {
  }

  /** Main result: the normal form of a schema accepts exactly what the schema accepts. */
  lemma {:induction false} SemKeepsAcceptance(leq: Order, v: Vocabulary, s: Json, x: Json)
    requires TotalOrder(leq) && NormalVocabulary(leq, v)
    ensures Accepts(v, Sem(leq, s), x) <==> Accepts(v, s, x)
    decreases s, 1
  {
    if s.Obj? {
      var t := Sem(leq, s);
      SameAround(leq, v, s, x);
      var near := Around(v, s, x);
      forall k | k in s.fields
        ensures Keyword(v, k, s.fields[k], near, x) == (k in t.fields ==> Keyword(v, k, t.fields[k], near, x))
      {
        SemFields(leq, s, k);
        if Dropped(k, s.fields[k]) { DroppedSaysNothing(v, k, s.fields[k], near, x); } else { KeywordKept(leq, v, k, s.fields[k], near, x); }
      }
      forall k | k in t.fields ensures k in s.fields { SemFields(leq, s, k); }
    }
  }
}
