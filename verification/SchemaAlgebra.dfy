/**
 The merge on semantic normal forms: it is commutative, associative and well defined, so the order in which
 the providers of a tool are merged does not matter.
 */
module SchemaAlgebra {
  import opened Wrappers
  import opened SchemaModel
  import Folding

  // ------------------------------------------------------------------ sorting

  lemma InsertHead(leq: Order, x: Json, h: Json, tail: seq<Json>)
    ensures Insert(leq, x, [h] + tail) == if leq(x, h) then [x, h] + tail else [h] + Insert(leq, x, tail)
  {
    assert ([h] + tail)[1..] == tail;
    assert [x] + ([h] + tail) == [x, h] + tail;
  }

  /** What one comparison with the head says about two items. */
  lemma Compared(leq: Order, x: Json, y: Json, h: Json)
    requires TotalOrder(leq)
    ensures (leq(x, y) || leq(y, x)) && (leq(x, y) && leq(y, x) ==> x == y)
    ensures leq(x, h) && !leq(y, h) ==> !leq(y, x)
  {
  }

  /** Two items that both go in front of the head. */
  lemma InsertBothFirst(leq: Order, x: Json, y: Json, items: seq<Json>)
    requires Insert(leq, x, items) == [x] + items && Insert(leq, y, items) == [y] + items
    requires leq(x, y) && (leq(y, x) ==> x == y)
    ensures Insert(leq, x, Insert(leq, y, items)) == Insert(leq, y, Insert(leq, x, items))
  {
    InsertHead(leq, x, y, items);
    InsertHead(leq, y, x, items);
    assert [x] + ([y] + items) == [x, y] + items;
  }

  /** One item goes in front of the head, the other behind it. */
  lemma InsertApart(leq: Order, x: Json, y: Json, h: Json, tail: seq<Json>)
    requires leq(x, h) && !leq(y, h) && !leq(y, x)
    ensures Insert(leq, x, Insert(leq, y, [h] + tail)) == Insert(leq, y, Insert(leq, x, [h] + tail))
  {
    InsertHead(leq, x, h, tail);
    InsertHead(leq, y, h, tail);
    InsertHead(leq, y, x, [h] + tail);
    InsertHead(leq, x, h, Insert(leq, y, tail));
    assert [x, h] + tail == [x] + ([h] + tail);
    assert [x, h] + Insert(leq, y, tail) == [x] + ([h] + Insert(leq, y, tail));
  }

  /** The smaller of two items stays in front of the head, whichever is inserted first. */
  lemma InsertAround(leq: Order, x: Json, y: Json, h: Json, tail: seq<Json>)
    requires leq(x, h) && (if leq(y, h) then leq(x, y) && (leq(y, x) ==> x == y) else !leq(y, x))
    ensures Insert(leq, x, Insert(leq, y, [h] + tail)) == Insert(leq, y, Insert(leq, x, [h] + tail))
  {
    if leq(y, h) {
      InsertHead(leq, x, h, tail);
      InsertHead(leq, y, h, tail);
      assert [x, h] + tail == [x] + ([h] + tail) && [y, h] + tail == [y] + ([h] + tail);
      InsertBothFirst(leq, x, y, [h] + tail);
    } else {
      InsertApart(leq, x, y, h, tail);
    }
  }

  /** Insertions may change places: each goes before the first item that is not smaller. */
  lemma {:induction false} InsertCommutes(leq: Order, x: Json, y: Json, items: seq<Json>)
    requires TotalOrder(leq)
    ensures Insert(leq, x, Insert(leq, y, items)) == Insert(leq, y, Insert(leq, x, items))
    decreases |items|
  {
    if items == [] {
      InsertOneMore(leq, x, y);
    } else {
      var (h, tail) := (items[0], items[1..]);
      assert items == [h] + tail;
      Compared(leq, x, y, h);
      Compared(leq, y, x, h);
      if leq(x, h) && (leq(x, y) || !leq(y, h)) {
        InsertAround(leq, x, y, h, tail);
      } else if leq(y, h) {
        InsertAround(leq, y, x, h, tail);
      } else {
        InsertCommutes(leq, x, y, tail);
        InsertHead(leq, x, h, tail);
        InsertHead(leq, y, h, tail);
        InsertHead(leq, x, h, Insert(leq, y, tail));
        InsertHead(leq, y, h, Insert(leq, x, tail));
      }
    }
  }

  lemma InsertOneMore(leq: Order, x: Json, y: Json)
    requires TotalOrder(leq)
    ensures Insert(leq, x, Insert(leq, y, [])) == Insert(leq, y, Insert(leq, x, []))
  {
    Compared(leq, x, y, x);
    InsertHead(leq, x, y, []);
    InsertHead(leq, y, x, []);
    assert [y] + [] == [y] && [x] + [] == [x];
  }

  lemma SortHead(leq: Order, h: Json, tail: seq<Json>)
    ensures Sort(leq, [h] + tail) == Insert(leq, h, Sort(leq, tail))
  {
    assert ([h] + tail)[1..] == tail;
  }

  /** An item that was inserted last below the head may as well be inserted last of all. */
  lemma PulledOut(leq: Order, h: Json, x: Json, tail: seq<Json>, rest: seq<Json>)
    requires TotalOrder(leq) && Sort(leq, tail) == Insert(leq, x, Sort(leq, rest))
    ensures Sort(leq, [h] + tail) == Insert(leq, x, Sort(leq, [h] + rest))
  {
    SortHead(leq, h, tail);
    SortHead(leq, h, rest);
    InsertCommutes(leq, h, x, Sort(leq, rest));
  }

  lemma RemoveBelow(items: seq<Json>, i: nat)
    requires 0 < i < |items|
    ensures items == [items[0]] + items[1..] && items[1..][i - 1] == items[i]
    ensures Folding.Remove(items, i) == [items[0]] + Folding.Remove(items[1..], i - 1)
  {
  }

  /** Any item may as well have been inserted last. */
  lemma {:induction false} InsertedLast(leq: Order, items: seq<Json>, i: nat)
    requires TotalOrder(leq) && i < |items|
    ensures Sort(leq, items) == Insert(leq, items[i], Sort(leq, Folding.Remove(items, i)))
    decreases |items|
  {
    if i == 0 {
      assert Folding.Remove(items, 0) == items[1..];
    } else {
      InsertedLast(leq, items[1..], i - 1);
      RemoveBelow(items, i);
      PulledOut(leq, items[0], items[i], items[1..], Folding.Remove(items[1..], i - 1));
    }
  }

  /** The sorted form depends only on the bag of items. */
  lemma {:induction false} SortByBag(leq: Order, xs: seq<Json>, ys: seq<Json>)
    requires TotalOrder(leq) && multiset(xs) == multiset(ys)
    ensures Sort(leq, xs) == Sort(leq, ys)
    decreases |xs|
  {
    Folding.SameMembers(xs, ys);
    if xs != [] {
      assert xs[0] in ys;
      var j :| 0 <= j < |ys| && ys[j] == xs[0];
      Folding.RemoveBag(xs, 0);
      Folding.RemoveBag(ys, j);
      SortByBag(leq, Folding.Remove(xs, 0), Folding.Remove(ys, j));
      InsertedLast(leq, xs, 0);
      InsertedLast(leq, ys, j);
    }
  }

  lemma SortTwice(leq: Order, xs: seq<Json>)
    requires TotalOrder(leq)
    ensures Sort(leq, Sort(leq, xs)) == Sort(leq, xs)
  {
    SortByBag(leq, Sort(leq, xs), xs);
  }

  lemma SortMembers(leq: Order, xs: seq<Json>)
    ensures forall x :: x in Sort(leq, xs) <==> x in xs
    ensures |Sort(leq, xs)| == |xs|
  {
    forall x ensures x in Sort(leq, xs) <==> x in xs {
      assert x in Sort(leq, xs) <==> x in multiset(Sort(leq, xs));
      assert x in xs <==> x in multiset(xs);
    }
    assert |multiset(Sort(leq, xs))| == |multiset(xs)|;
  }

  // ------------------------------------------------------------------ normal forms are normal

  /** Normalising twice is normalising once. */
  lemma {:induction false} SemIdempotent(leq: Order, s: Json)
    requires TotalOrder(leq)
    ensures Sem(leq, Sem(leq, s)) == Sem(leq, s)
    decreases s, 0
  {
    if s.Obj? {
      forall k | k in s.fields ensures SemValue(leq, k, SemValue(leq, k, s.fields[k])) == SemValue(leq, k, s.fields[k]) {
        SemValueIdempotent(leq, k, s.fields[k]);
      }
      var t := Sem(leq, s);
      forall k | k in t.fields ensures !Dropped(k, t.fields[k]) {
        if k.RequiredKey? && s.fields[k].Arr? { SortMembers(leq, s.fields[k].items); }
      }
    }
  }

  lemma {:induction false} SemValueIdempotent(leq: Order, key: Text, v: Json)
    requires TotalOrder(leq)
    ensures SemValue(leq, key, SemValue(leq, key, v)) == SemValue(leq, key, v)
    decreases v, 1
  {
    match ShapeOf(key)
    case Schemas =>
      if v.Obj? {
        forall n | n in v.fields ensures Sem(leq, Sem(leq, v.fields[n])) == Sem(leq, v.fields[n]) { SemIdempotent(leq, v.fields[n]); }
      }
    case OneSchema => SemIdempotent(leq, v);
    case SchemaList =>
      if v.Arr? {
        forall i | 0 <= i < |v.items| ensures Sem(leq, Sem(leq, v.items[i])) == Sem(leq, v.items[i]) { SemIdempotent(leq, v.items[i]); }
        assert SemValue(leq, key, SemValue(leq, key, v)).items == SemValue(leq, key, v).items;
      }
    case Unordered => if v.Arr? { SortTwice(leq, v.items); }
    case Plain =>
  }

  // ------------------------------------------------------------------ well-formed schemas and equivalence

  /** Wherever the merge descends, a property's schema is an object or a boolean. */
  ghost predicate WellFormed(s: Json)
    decreases s
  {
    s.Obj? ==> (PropertiesKey in s.fields && s.fields[PropertiesKey].Obj? ==>
      var props := s.fields[PropertiesKey].fields;
      forall n :: n in props ==> props[n].Bool? || (props[n].Obj? && WellFormed(props[n])))
  }

  /** Both undefined, or both defined with the same normal form. */
  ghost predicate Same(leq: Order, x: Option<Json>, y: Option<Json>) {
    match (x, y)
    case (None, None) => true
    case (Some(a), Some(b)) => Sem(leq, a) == Sem(leq, b)
    case _ => false
  }

  // ------------------------------------------------------------------ the parts of a schema

  /** What one side says about a property, or what merging two sides made of it. */
  datatype Joined = Fail | Absent | Present(schema: Json)

  function Lookup(props: map<Text, Json>, name: Text): Joined {
    if name in props then Present(props[name]) else Absent
  }

  function Join(leq: Order, name: Text, x: Joined, y: Joined, required: bool): Joined {
    match (x, y)
    case (Fail, _) => Fail
    case (_, Fail) => Fail
    case (Absent, Absent) => Absent
    case (Present(a), Present(b)) => (match MergeBoth(leq, name, a, b) case None => Fail case Some(m) => Present(m))
    case (Present(_), Absent) => if required then Fail else x
    case (Absent, Present(_)) => if required then Fail else y
  }

  ghost predicate SameJoined(leq: Order, x: Joined, y: Joined) {
    match (x, y)
    case (Fail, Fail) => true
    case (Absent, Absent) => true
    case (Present(a), Present(b)) => Sem(leq, a) == Sem(leq, b)
    case _ => false
  }

  /** The conditions on two schemas that do not concern single properties. */
  ghost predicate Guards(leq: Order, a: Json, b: Json)
    requires a.Obj? && b.Obj?
  {
    && RequiredSet(a.fields).Some? && RequiredSet(a.fields) == RequiredSet(b.fields)
    && Props(a.fields).Some? && Props(b.fields).Some?
    && OthersAgree(leq, a.fields, b.fields)
  }

  ghost function JoinAt(leq: Order, a: Json, b: Json, name: Text): Joined
    requires a.Obj? && b.Obj? && Guards(leq, a, b)
  {
    Join(leq, name, Lookup(Props(a.fields).value, name), Lookup(Props(b.fields).value, name),
         name in RequiredSet(a.fields).value)
  }

  /** The names of `required` in canonical order; an empty list says nothing. */
  function ReqForm(leq: Order, m: map<Text, Json>): Option<Json> {
    if RequiredKey in m && !Dropped(RequiredKey, m[RequiredKey]) then Some(SemValue(leq, RequiredKey, m[RequiredKey])) else None
  }

  lemma {:induction false} UniqueItems(items: seq<Json>)
    ensures forall x :: x in Unique(items) <==> x in items
    ensures forall x :: multiset(Unique(items))[x] == if x in items then 1 else 0
  {
    if items != [] {
      UniqueItems(items[1..]);
      assert items == [items[0]] + items[1..];
      if items[0] !in items[1..] {
        assert Unique(items) == [items[0]] + Unique(items[1..]);
      }
    }
  }

  lemma TextsAreItems(items: seq<Json>)
    requires AllTexts(items)
    ensures forall x: Json :: x in items <==> x.Str? && x.text in TextsOf(items)
  {
    forall x: Json | x.Str? && x.text in TextsOf(items) ensures x in items {
      var i :| 0 <= i < |items| && items[i].Str? && items[i].text == x.text;
    }
    forall x | x in items ensures x.Str? && x.text in TextsOf(items) {
      var i :| 0 <= i < |items| && items[i] == x;
    }
  }

  /** Two lists of the same names have the same canonical form once repetitions are gone. */
  lemma SameNamesSameForm(leq: Order, xs: seq<Json>, ys: seq<Json>)
    requires TotalOrder(leq) && AllTexts(xs) && AllTexts(ys) && TextsOf(xs) == TextsOf(ys)
    ensures Sort(leq, Unique(xs)) == Sort(leq, Unique(ys))
  {
    TextsAreItems(xs);
    TextsAreItems(ys);
    UniqueItems(xs);
    UniqueItems(ys);
    assert multiset(Unique(xs)) == multiset(Unique(ys));
    SortByBag(leq, Unique(xs), Unique(ys));
  }

  lemma SortedNames(leq: Order, xs: seq<Json>)
    requires AllTexts(xs)
    ensures AllTexts(Sort(leq, Unique(xs))) && TextsOf(Sort(leq, Unique(xs))) == TextsOf(xs)
    ensures xs != [] ==> Sort(leq, Unique(xs)) != []
  {
    UniqueItems(xs);
    SortMembers(leq, Unique(xs));
    var ys := Sort(leq, Unique(xs));
    forall i | 0 <= i < |ys| ensures ys[i].Str? { assert ys[i] in xs; }
    TextsAreItems(xs);
    TextsAreItems(ys);
    forall t ensures t in TextsOf(ys) <==> t in TextsOf(xs) {
      assert Str(t) in ys <==> Str(t) in xs;
    }
    if xs != [] { assert xs[0] in ys; }
  }

  /** `required` of a merge: the same names, in a form that depends on the names alone. */
  ghost predicate CanonicalRequired(leq: Order, m: map<Text, Json>, req: set<Text>) {
    && RequiredSet(m) == Some(req)
    && (req == {} ==> ReqForm(leq, m) == None)
    && (req != {} ==> exists xs :: NamesForm(leq, m, req, xs))
  }

  /** The form of `required` is the sorted list of these names. */
  predicate NamesForm(leq: Order, m: map<Text, Json>, req: set<Text>, xs: seq<Json>) {
    AllTexts(xs) && TextsOf(xs) == req && ReqForm(leq, m) == Some(Arr(Sort(leq, Unique(xs))))
  }

  lemma CanonicalSame(leq: Order, m: map<Text, Json>, m': map<Text, Json>, req: set<Text>)
    requires TotalOrder(leq) && CanonicalRequired(leq, m, req) && CanonicalRequired(leq, m', req)
    ensures ReqForm(leq, m) == ReqForm(leq, m')
  {
    if req != {} {
      var xs :| NamesForm(leq, m, req, xs);
      var ys :| NamesForm(leq, m', req, ys);
      SameNamesSameForm(leq, xs, ys);
    }
  }

  lemma EmptyNames(items: seq<Json>)
    requires AllTexts(items) && TextsOf(items) == {}
    ensures items == []
  {
    assert items == [] || items[0] in items;
    TextsAreItems(items);
  }

  /** What is known of a defined merge. */
  ghost predicate MergeView(leq: Order, a: Json, b: Json, m: Json)
    requires a.Obj? && b.Obj? && Guards(leq, a, b)
  {
    && m.Obj?
    && CanonicalRequired(leq, m.fields, RequiredSet(a.fields).value)
    && Props(m.fields).Some?
    && (PropertiesKey in m.fields <==> PropertiesKey in a.fields || PropertiesKey in b.fields)
    && (forall n :: Lookup(Props(m.fields).value, n) == JoinAt(leq, a, b, n))
    && (forall k :: !Special(k) ==> (k in m.fields <==> k in a.fields) && (k in a.fields ==> m.fields[k] == a.fields[k]))
  }

  lemma NamedRequired(leq: Order, a: map<Text, Json>, b: map<Text, Json>, req: set<Text>, m: map<Text, Json>)
    requires TotalOrder(leq) && RequiredSet(a) == Some(req) && RequiredSet(b) == Some(req) && req != {}
    requires RequiredKey in m && MergedRequired(leq, a, b, req) == Some(m[RequiredKey])
    ensures CanonicalRequired(leq, m, req)
  {
    var items := a[RequiredKey].items;
    assert items != [] by { assert TextsOf([]) == {}; }
    assert m[RequiredKey] == Arr(Sort(leq, Unique(items)));
    SortedRequired(leq, m, items);
    assert NamesForm(leq, m, req, items);
  }

  /** A sorted list of names is its own canonical form. */
  lemma SortedRequired(leq: Order, m: map<Text, Json>, items: seq<Json>)
    requires TotalOrder(leq) && AllTexts(items) && items != []
    requires RequiredKey in m && m[RequiredKey] == Arr(Sort(leq, Unique(items)))
    ensures ReqForm(leq, m) == Some(m[RequiredKey]) && RequiredSet(m) == Some(TextsOf(items))
  {
    SortedNames(leq, items);
    SortTwice(leq, Unique(items));
  }

  lemma EmptyRequired(leq: Order, a: map<Text, Json>, b: map<Text, Json>, m: map<Text, Json>)
    requires TotalOrder(leq) && RequiredSet(a) == Some({}) && RequiredSet(b) == Some({})
    requires RequiredKey in m <==> RequiredKey in a || RequiredKey in b
    requires RequiredKey in m ==> MergedRequired(leq, a, b, {}) == Some(m[RequiredKey])
    ensures CanonicalRequired(leq, m, {})
  {
    if RequiredKey in a { EmptyNames(a[RequiredKey].items); }
    if RequiredKey in b { EmptyNames(b[RequiredKey].items); }
  }

  lemma ChildrenJoin(leq: Order, a: Json, b: Json, n: Text)
    requires a.Obj? && b.Obj? && Guards(leq, a, b)
    ensures var children := MergeProps(leq, a, Props(a.fields).value, Props(b.fields).value, RequiredSet(a.fields).value);
            (n in children <==> !JoinAt(leq, a, b, n).Absent?) &&
            (n in children ==> (children[n].None? <==> JoinAt(leq, a, b, n).Fail?)) &&
            (n in children && children[n].Some? ==> JoinAt(leq, a, b, n) == Present(children[n].value))
  {
  }

  lemma MergeDefined(leq: Order, a: Json, b: Json)
    requires a.Obj? && b.Obj?
    ensures Merge(leq, a, b).Some? <==> Guards(leq, a, b) && forall n :: !JoinAt(leq, a, b, n).Fail?
  {
    if Guards(leq, a, b) {
      var children := MergeProps(leq, a, Props(a.fields).value, Props(b.fields).value, RequiredSet(a.fields).value);
      forall n ensures (n in children && children[n].None?) <==> JoinAt(leq, a, b, n).Fail? {
        ChildrenJoin(leq, a, b, n);
      }
    }
  }

  ghost function Values(children: map<Text, Option<Json>>): map<Text, Json>
    requires forall n :: n in children ==> children[n].Some?
  {
    map n | n in children :: children[n].value
  }

  /** The fields of a merged schema, one keyword at a time. */
  lemma MergedFields(leq: Order, a: Json, b: Json)
    requires a.Obj? && b.Obj? && Merge(leq, a, b).Some?
    ensures Guards(leq, a, b) && Merge(leq, a, b).value.Obj?
    ensures var (m, req) := (Merge(leq, a, b).value.fields, RequiredSet(a.fields).value);
            var children := MergeProps(leq, a, Props(a.fields).value, Props(b.fields).value, req);
            (forall n :: n in children ==> children[n].Some?) &&
            (forall k :: k in m <==> k in a.fields || k in b.fields) &&
            (PropertiesKey in m ==> m[PropertiesKey] == Obj(Values(children))) &&
            (RequiredKey in m ==> MergedRequired(leq, a.fields, b.fields, req) == Some(m[RequiredKey])) &&
            (forall k :: !Special(k) && k in m ==> k in a.fields && m[k] == a.fields[k])
  {
  }

  lemma MergedProps(leq: Order, a: Json, b: Json, n: Text)
    requires a.Obj? && b.Obj? && Merge(leq, a, b).Some?
    ensures Guards(leq, a, b) && Merge(leq, a, b).value.Obj? && Props(Merge(leq, a, b).value.fields).Some?
    ensures Lookup(Props(Merge(leq, a, b).value.fields).value, n) == JoinAt(leq, a, b, n)
  {
    MergedFields(leq, a, b);
    ChildrenJoin(leq, a, b, n);
  }

  lemma MergeViewed(leq: Order, a: Json, b: Json)
    requires TotalOrder(leq) && a.Obj? && b.Obj? && Merge(leq, a, b).Some?
    ensures Guards(leq, a, b) && MergeView(leq, a, b, Merge(leq, a, b).value)
  {
    var m := Merge(leq, a, b).value;
    MergedFields(leq, a, b);
    var req := RequiredSet(a.fields).value;
    forall n ensures Props(m.fields).Some? && Lookup(Props(m.fields).value, n) == JoinAt(leq, a, b, n) {
      MergedProps(leq, a, b, n);
    }
    assert Props(m.fields).Some? by { MergedProps(leq, a, b, Title); }
    if req == {} {
      EmptyRequired(leq, a.fields, b.fields, m.fields);
    } else {
      NamedRequired(leq, a.fields, b.fields, req, m.fields);
    }
  }

  /** Whether a merge is defined, and what it is. */
  lemma MergeByParts(leq: Order, a: Json, b: Json)
    requires TotalOrder(leq) && a.Obj? && b.Obj?
    ensures Merge(leq, a, b).Some? <==> Guards(leq, a, b) && forall n :: !JoinAt(leq, a, b, n).Fail?
    ensures Merge(leq, a, b).Some? ==> MergeView(leq, a, b, Merge(leq, a, b).value)
  {
    MergeDefined(leq, a, b);
    if Merge(leq, a, b).Some? { MergeViewed(leq, a, b); }
  }
}
