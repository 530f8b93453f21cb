/**
 Merging only widens: arguments one provider's closed schema accepts are accepted by the merged schema, and
 the required names stay the same.
 */
module SchemaWidening {
  import opened Wrappers
  import opened SchemaModel
  import opened SchemaAlgebra
  import opened SchemaOrder
  import opened SchemaAcceptance

  /** No member but the declared ones. */
  predicate ClosedObject(m: map<Text, Json>) {
    AdditionalProperties in m && m[AdditionalProperties] == Bool(false) && PatternProperties !in m
  }

  /** Objects are not accepted at all. */
  predicate NonObject(m: map<Text, Json>) {
    TypeKey in m && m[TypeKey].Str? && m[TypeKey].text != ObjectName && PropertiesKey !in m
  }

  /** Closed at every level the merge descends to. */
  ghost predicate Closed(s: Json)
    decreases s
  {
    s.Obj? ==>
      (ClosedObject(s.fields) || NonObject(s.fields)) &&
      (PropertiesKey in s.fields && s.fields[PropertiesKey].Obj? ==>
        forall n :: n in s.fields[PropertiesKey].fields ==> Closed(s.fields[PropertiesKey].fields[n]))
  }

  lemma ClosedChild(s: Json, n: Text)
    requires s.Obj? && Closed(s) && Props(s.fields).Some? && n in Props(s.fields).value
    ensures Closed(Props(s.fields).value[n]) && Props(s.fields).value[n] < s
  {
  }

  // ------------------------------------------------------------------ one provider of two

  lemma SameNeighbours(leq: Order, v: Vocabulary, a: Json, b: Json, m: Json, x: Json)
    requires TotalOrder(leq) && a.Obj? && b.Obj? && Guards(leq, a, b) && MergeView(leq, a, b, m)
    ensures Around(v, m, x) == Around(v, a, x).(declared := KeysAt(m.fields, PropertiesKey))
    ensures KeysAt(a.fields, PropertiesKey) <= KeysAt(m.fields, PropertiesKey)
  {
    forall n | n in KeysAt(a.fields, PropertiesKey) ensures n in KeysAt(m.fields, PropertiesKey) {
      assert Lookup(Props(m.fields).value, n) == JoinAt(leq, a, b, n);
    }
  }

  lemma NonObjectRefuses(v: Vocabulary, a: Json, x: Json)
    requires a.Obj?
    ensures NonObject(a.fields) && x.Obj? ==> !Accepts(v, a, x)
  {
    if NonObject(a.fields) && x.Obj? {
      assert !Keyword(v, TypeKey, a.fields[TypeKey], Around(v, a, x), x);
    }
  }

  lemma ClosedRefuses(v: Vocabulary, a: Json, x: Json, n: Text)
    requires a.Obj? && x.Obj? && n in x.fields && n !in KeysAt(a.fields, PropertiesKey)
    ensures ClosedObject(a.fields) ==> !Accepts(v, a, x)
  {
    if ClosedObject(a.fields) {
      var near := Around(v, a, x);
      assert Additional(v, near, n) && !Accepts(v, Bool(false), x.fields[n]);
      assert !Keyword(v, AdditionalProperties, a.fields[AdditionalProperties], near, x);
    }
  }

  /** A member that only the other provider declares is refused by a closed schema. */
  lemma UndeclaredRefused(v: Vocabulary, a: Json, x: Json, n: Text)
    requires a.Obj? && Closed(a) && Accepts(v, a, x) && x.Obj? && n in x.fields && Props(a.fields).Some?
    ensures n in Props(a.fields).value
  {
    NonObjectRefuses(v, a, x);
    if n !in KeysAt(a.fields, PropertiesKey) { ClosedRefuses(v, a, x, n); }
  }

  lemma RequiredKept(leq: Order, v: Vocabulary, a: Json, m: Json, x: Json, near: Siblings)
    requires a.Obj? && m.Obj? && RequiredSet(a.fields).Some? && RequiredSet(a.fields) == RequiredSet(m.fields)
    requires Accepts(v, a, x) && RequiredKey in m.fields
    ensures Keyword(v, RequiredKey, m.fields[RequiredKey], near, x)
  {
    if x.Obj? && m.fields[RequiredKey].Arr? {
      var items := m.fields[RequiredKey].items;
      TextsAreItems(items);
      forall y: Json | y in items && y.Str? ensures y.text in x.fields {
        assert y.text in RequiredSet(a.fields).value;
        TextsAreItems(a.fields[RequiredKey].items);
        assert Keyword(v, RequiredKey, a.fields[RequiredKey], Around(v, a, x), x);
      }
    }
  }

  lemma {:induction false} ChildKept(leq: Order, v: Vocabulary, a: Json, b: Json, m: Json, x: Json, n: Text)
    requires TotalOrder(leq) && WellFormedSchema(a) && WellFormedSchema(b) && Closed(a)
    requires Merge(leq, a, b) == Some(m) && m.Obj? && Props(m.fields).Some?
    requires Accepts(v, a, x) && x.Obj? && n in x.fields && n in Props(m.fields).value
    ensures Accepts(v, Props(m.fields).value[n], x.fields[n])
    decreases a, 0
  {
    MergeViewed(leq, a, b);
    UndeclaredRefused(v, a, x, n);
    var pa := Props(a.fields).value;
    assert Lookup(Props(m.fields).value, n) == JoinAt(leq, a, b, n);
    assert Keyword(v, PropertiesKey, a.fields[PropertiesKey], Around(v, a, x), x);
    assert Accepts(v, pa[n], x.fields[n]);
    ChildWellFormed(a, n);
    ClosedChild(a, n);
    if n in Props(b.fields).value {
      ChildWellFormed(b, n);
      BothKind(leq, n, pa[n], Props(b.fields).value[n]);
      if pa[n].Obj? && Props(b.fields).value[n].Obj? {
        MergeAcceptsLeft(leq, v, pa[n], Props(b.fields).value[n], x.fields[n]);
      }
    }
  }

  /** Every other keyword keeps its value; only `additionalProperties` looks at the declared names, and they only grow. */
  lemma OtherKept(v: Vocabulary, k: Text, value: Json, near: Siblings, declared: set<Text>, x: Json)
    requires !Special(k) && near.declared <= declared && Keyword(v, k, value, near, x)
    ensures Keyword(v, k, value, near.(declared := declared), x)
  {
    if k.AdditionalProperties? {
      assert forall n :: Additional(v, near.(declared := declared), n) ==> Additional(v, near, n);
    }
  }

  /** What the first provider accepts, the merge accepts. */
  lemma {:induction false} MergeAcceptsLeft(leq: Order, v: Vocabulary, a: Json, b: Json, x: Json)
    requires TotalOrder(leq) && WellFormedSchema(a) && WellFormedSchema(b) && Closed(a)
    requires Merge(leq, a, b).Some? && Accepts(v, a, x)
    ensures Accepts(v, Merge(leq, a, b).value, x)
    decreases a, 1
  {
    var m := Merge(leq, a, b).value;
    MergeViewed(leq, a, b);
    SameNeighbours(leq, v, a, b, m, x);
    var near := Around(v, m, x);
    forall k | k in m.fields ensures Keyword(v, k, m.fields[k], near, x) {
      if k.RequiredKey? {
        RequiredKept(leq, v, a, m, x, near);
      } else if k.PropertiesKey? {
        var pm := m.fields[k].fields;
        if x.Obj? {
          forall n | n in pm && n in x.fields ensures Accepts(v, pm[n], x.fields[n]) { ChildKept(leq, v, a, b, m, x, n); }
        }
      } else if !Special(k) {
        OtherKept(v, k, a.fields[k], Around(v, a, x), near.declared, x);
      }
    }
  }

  /** What either provider accepts, the merge accepts, and it requires the same names. */
  lemma MergeAccepts(leq: Order, v: Vocabulary, a: Json, b: Json, x: Json)
    requires TotalOrder(leq) && NormalVocabulary(leq, v)
    requires WellFormedSchema(a) && WellFormedSchema(b) && Closed(a) && Closed(b) && Merge(leq, a, b).Some?
    ensures Accepts(v, a, x) || Accepts(v, b, x) ==> Accepts(v, Merge(leq, a, b).value, x)
    ensures Merge(leq, a, b).value.Obj?
    ensures RequiredSet(Merge(leq, a, b).value.fields) == RequiredSet(a.fields) == RequiredSet(b.fields)
  {
    MergeViewed(leq, a, b);
    var m := Merge(leq, a, b).value;
    if Accepts(v, a, x) {
      MergeAcceptsLeft(leq, v, a, b, x);
    } else if Accepts(v, b, x) {
      MergeCommutes(leq, a, b);
      var m' := Merge(leq, b, a).value;
      MergeAcceptsLeft(leq, v, b, a, x);
      SemKeepsAcceptance(leq, v, m, x);
      SemKeepsAcceptance(leq, v, m', x);
    }
  }

  // ------------------------------------------------------------------ any number of providers

  /** A keyword that both sides have with the same meaning, and the merge as the first side has it. */
  predicate Kept(leq: Order, a: map<Text, Json>, b: map<Text, Json>, m: map<Text, Json>, k: Text) {
    (k in m <==> k in a) && (k in a <==> k in b) && (k in a ==> m[k] == a[k] && SemValue(leq, k, a[k]) == SemValue(leq, k, b[k]))
  }

  lemma KeywordKeptBy(leq: Order, a: Json, b: Json, m: Json, k: Text)
    requires a.Obj? && b.Obj? && Guards(leq, a, b) && MergeView(leq, a, b, m) && !Special(k)
    ensures Kept(leq, a.fields, b.fields, m.fields, k)
  {
  }

  lemma FalseIsFalse(leq: Order, v: Json)
    requires SemValue(leq, AdditionalProperties, v) == SemValue(leq, AdditionalProperties, Bool(false))
    ensures v == Bool(false)
  {
  }

  lemma ClosedTop(leq: Order, a: map<Text, Json>, b: map<Text, Json>, m: map<Text, Json>)
    requires ClosedObject(a) || NonObject(a)
    requires ClosedObject(b) || NonObject(b)
    requires Kept(leq, a, b, m, TypeKey) && Kept(leq, a, b, m, AdditionalProperties) && Kept(leq, a, b, m, PatternProperties)
    requires PropertiesKey in m <==> PropertiesKey in a || PropertiesKey in b
    ensures ClosedObject(m) || NonObject(m)
  {
    if !ClosedObject(a) && ClosedObject(b) { FalseIsFalse(leq, a[AdditionalProperties]); }
  }

  lemma MergeClosedTop(leq: Order, a: Json, b: Json, m: Json)
    requires TotalOrder(leq) && a.Obj? && b.Obj? && Closed(a) && Closed(b) && Guards(leq, a, b) && MergeView(leq, a, b, m)
    ensures ClosedObject(m.fields) || NonObject(m.fields)
  {
    KeywordKeptBy(leq, a, b, m, TypeKey);
    KeywordKeptBy(leq, a, b, m, AdditionalProperties);
    KeywordKeptBy(leq, a, b, m, PatternProperties);
    ClosedTop(leq, a.fields, b.fields, m.fields);
  }

  lemma {:induction false} MergeClosed(leq: Order, a: Json, b: Json)
    requires TotalOrder(leq) && WellFormedSchema(a) && WellFormedSchema(b) && Closed(a) && Closed(b) && Merge(leq, a, b).Some?
    ensures Closed(Merge(leq, a, b).value)
    decreases a
  {
    var m := Merge(leq, a, b).value;
    MergeViewed(leq, a, b);
    MergeClosedTop(leq, a, b, m);
    var (pa, pb, pm) := (Props(a.fields).value, Props(b.fields).value, Props(m.fields).value);
    forall n | n in pm ensures Closed(pm[n]) {
      assert Lookup(pm, n) == JoinAt(leq, a, b, n);
      if n in pa { ChildWellFormed(a, n); ClosedChild(a, n); }
      if n in pb { ChildWellFormed(b, n); ClosedChild(b, n); }
      if n in pa && n in pb {
        BothKind(leq, n, pa[n], pb[n]);
        if pa[n].Obj? && pb[n].Obj? { MergeClosed(leq, pa[n], pb[n]); }
      }
    }
  }

  ghost predicate AllClosed(xs: seq<Json>) {
    forall i :: 0 <= i < |xs| ==> Closed(xs[i])
  }

  lemma {:induction false} ListClosed(leq: Order, xs: seq<Json>)
    requires TotalOrder(leq) && xs != [] && AllPublishable(xs) && AllClosed(xs) && MergeList(leq, xs).Some?
    ensures Closed(MergeList(leq, xs).value) && Publishable(MergeList(leq, xs).value)
  {
    ListPublishable(leq, xs);
    if |xs| > 1 {
      var front, last := xs[..|xs| - 1], xs[|xs| - 1];
      ListClosed(leq, front);
      if last.Obj? { MergeClosed(leq, MergeList(leq, front).value, last); }
    }
  }

  /** Every provider's schema is narrower than the merged one. */
  ghost predicate Covers(v: Vocabulary, m: Json, s: Json, x: Json, many: bool) {
    (Accepts(v, s, x) ==> Accepts(v, m, x)) && (s.Obj? <==> m.Obj?) &&
    (s.Obj? && many ==> RequiredSet(m.fields) == RequiredSet(s.fields))
  }

  lemma CoversThrough(v: Vocabulary, m: Json, f: Json, s: Json, x: Json, many: bool)
    requires Covers(v, m, f, x, true) && (if many then Covers(v, f, s, x, true) else f == s)
    ensures Covers(v, m, s, x, true)
  {
  }

  /** Main result: a value any provider of a tool accepts is accepted by the published schema, which requires the same names. */
  lemma {:induction false} PublishedAcceptsAll(leq: Order, v: Vocabulary, xs: seq<Json>, i: nat, x: Json)
    requires TotalOrder(leq) && NormalVocabulary(leq, v)
    requires xs != [] && AllPublishable(xs) && AllClosed(xs) && MergeList(leq, xs).Some? && i < |xs|
    ensures Covers(v, MergeList(leq, xs).value, xs[i], x, |xs| > 1)
    decreases |xs|
  {
    if |xs| > 1 {
      var front, last := xs[..|xs| - 1], xs[|xs| - 1];
      ListClosed(leq, front);
      OneMoreProvider(leq, v, MergeList(leq, front).value, last, x);
      if i < |front| {
        PublishedAcceptsAll(leq, v, front, i, x);
        assert xs[i] == front[i];
        CoversThrough(v, MergeList(leq, xs).value, MergeList(leq, front).value, xs[i], x, |front| > 1);
      }
    }
  }

  lemma OneMoreProvider(leq: Order, v: Vocabulary, f: Json, last: Json, x: Json)
    requires TotalOrder(leq) && NormalVocabulary(leq, v) && Publishable(f) && Publishable(last) && Closed(f) && Closed(last)
    requires MergeMaps(leq, f, last).Some?
    ensures var m := MergeMaps(leq, f, last).value; Covers(v, m, f, x, true) && Covers(v, m, last, x, true)
  {
    if f.Obj? { MergeAccepts(leq, v, f, last, x); }
  }
}
