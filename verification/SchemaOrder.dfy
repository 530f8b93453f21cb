/**
 Laws of the merge up to semantic normal form, and from them: whether any number of schemas merge, and into
 what normal form, does not depend on the order of the providers.
 */
module SchemaOrder {
  import opened Wrappers
  import opened SchemaModel
  import opened SchemaAlgebra
  import opened Folding

  ghost predicate WellFormedChild(c: Json) {
    c.Bool? || (c.Obj? && WellFormed(c))
  }

  ghost predicate WellFormedSchema(s: Json) {
    s.Obj? && WellFormed(s)
  }

  lemma ChildWellFormed(s: Json, n: Text)
    requires WellFormedSchema(s) && Props(s.fields).Some? && n in Props(s.fields).value
    ensures WellFormedChild(Props(s.fields).value[n]) && Props(s.fields).value[n] < s
  {
  }

  /** An object never means the same as a boolean, whatever keyword it is read under. */
  lemma ObjectsStayObjects(leq: Order, n: Text, c: Json)
    requires c.Obj?
    ensures SemValue(leq, n, c).Obj?
  {
  }

  // ------------------------------------------------------------------ normal forms and parts

  /** Two schemas with the same parts up to normal form have the same normal form. */
  ghost predicate SameParts(leq: Order, a: Json, b: Json)
    requires a.Obj? && b.Obj?
  {
    && ReqForm(leq, a.fields) == ReqForm(leq, b.fields)
    && (PropertiesKey in a.fields <==> PropertiesKey in b.fields)
    && SameProps(leq, a.fields, b.fields)
    && OthersSame(leq, a.fields, b.fields)
  }

  ghost predicate OthersSame(leq: Order, a: map<Text, Json>, b: map<Text, Json>) {
    && (forall k :: !Special(k) ==> (k in a <==> k in b))
    && (forall k :: !Special(k) && k in a && k in b ==> SemValue(leq, k, a[k]) == SemValue(leq, k, b[k]))
  }

  ghost predicate SameProps(leq: Order, a: map<Text, Json>, b: map<Text, Json>) {
    match (Props(a), Props(b))
    case (Some(pa), Some(pb)) => forall n :: SameJoined(leq, Lookup(pa, n), Lookup(pb, n))
    case (None, None) => a[PropertiesKey] == b[PropertiesKey]
    case _ => false
  }

  lemma SemFromParts(leq: Order, a: Json, b: Json)
    requires a.Obj? && b.Obj? && SameParts(leq, a, b)
    ensures Sem(leq, a) == Sem(leq, b)
  {
    if PropertiesKey in a.fields && Props(a.fields).Some? {
      var pa, pb := Props(a.fields).value, Props(b.fields).value;
      forall n ensures (n in pa <==> n in pb) && (n in pa ==> Sem(leq, pa[n]) == Sem(leq, pb[n])) {
        assert SameJoined(leq, Lookup(pa, n), Lookup(pb, n));
      }
      assert SemValue(leq, PropertiesKey, a.fields[PropertiesKey]).fields == SemValue(leq, PropertiesKey, b.fields[PropertiesKey]).fields;
    }
    var sa, sb := Sem(leq, a).fields, Sem(leq, b).fields;
    forall k ensures (k in sa <==> k in sb) && (k in sa ==> sa[k] == sb[k]) {
    }
    assert sa == sb;
  }

  lemma PropsFromSem(leq: Order, a: Json, b: Json)
    requires a.Obj? && b.Obj? && Sem(leq, a) == Sem(leq, b)
    ensures PropertiesKey in a.fields <==> PropertiesKey in b.fields
    ensures SameProps(leq, a.fields, b.fields)
  {
    var sa, sb := Sem(leq, a).fields, Sem(leq, b).fields;
    assert PropertiesKey in a.fields <==> PropertiesKey in sa;
    assert PropertiesKey in b.fields <==> PropertiesKey in sb;
    if PropertiesKey in a.fields {
      assert sa[PropertiesKey] == SemValue(leq, PropertiesKey, a.fields[PropertiesKey]);
      assert sb[PropertiesKey] == SemValue(leq, PropertiesKey, b.fields[PropertiesKey]);
      if a.fields[PropertiesKey].Obj? {
        var pa, pb := a.fields[PropertiesKey].fields, b.fields[PropertiesKey].fields;
        forall n ensures SameJoined(leq, Lookup(pa, n), Lookup(pb, n)) {
          assert n in pa <==> n in sa[PropertiesKey].fields;
          assert n in pb <==> n in sb[PropertiesKey].fields;
        }
      }
    }
  }

  lemma PartsFromSem(leq: Order, a: Json, b: Json)
    requires a.Obj? && b.Obj? && Sem(leq, a) == Sem(leq, b)
    ensures SameParts(leq, a, b)
  {
    var sa, sb := Sem(leq, a).fields, Sem(leq, b).fields;
    PropsFromSem(leq, a, b);
    assert ReqForm(leq, a.fields) == if RequiredKey in sa then Some(sa[RequiredKey]) else None;
    assert ReqForm(leq, b.fields) == if RequiredKey in sb then Some(sb[RequiredKey]) else None;
    forall k | !Special(k)
      ensures (k in a.fields <==> k in b.fields) &&
              (k in a.fields ==> SemValue(leq, k, a.fields[k]) == SemValue(leq, k, b.fields[k]))
    {
      assert k in a.fields <==> k in sa;
      assert k in b.fields <==> k in sb;
    }
  }

  /** The required names can be read off the canonical form. */
  lemma RequiredFromForm(leq: Order, a: map<Text, Json>, b: map<Text, Json>)
    requires ReqForm(leq, a) == ReqForm(leq, b)
    ensures RequiredSet(a) == RequiredSet(b)
  {
    RequiredOfForm(leq, a);
    RequiredOfForm(leq, b);
  }

  function FormSet(form: Option<Json>): Option<set<Text>> {
    match form
    case None => Some({})
    case Some(v) => if v.Arr? && AllTexts(v.items) then Some(TextsOf(v.items)) else None
  }

  lemma SortedTexts(leq: Order, items: seq<Json>)
    ensures AllTexts(items) <==> AllTexts(Sort(leq, items))
    ensures AllTexts(items) ==> TextsOf(items) == TextsOf(Sort(leq, items))
  {
    var sorted := Sort(leq, items);
    SortMembers(leq, items);
    if AllTexts(items) {
      forall i | 0 <= i < |sorted| ensures sorted[i].Str? { assert sorted[i] in items; }
      TextsAreItems(items);
      TextsAreItems(sorted);
      forall t ensures t in TextsOf(items) <==> t in TextsOf(sorted) {
        assert Str(t) in items <==> Str(t) in sorted;
      }
    }
    if AllTexts(sorted) {
      forall i | 0 <= i < |items| ensures items[i].Str? { assert items[i] in sorted; }
    }
  }

  /** How a value of `required` is normalised. */
  lemma RequiredValue(leq: Order, v: Json)
    ensures SemValue(leq, RequiredKey, v) == if v.Arr? then Arr(Sort(leq, v.items)) else v
  {
  }

  lemma RequiredOfForm(leq: Order, a: map<Text, Json>)
    ensures RequiredSet(a) == FormSet(ReqForm(leq, a))
  {
    if RequiredKey in a {
      var v := a[RequiredKey];
      RequiredValue(leq, v);
      if v == Arr([]) {
        assert Dropped(RequiredKey, v) && TextsOf([]) == {};
      } else if v.Arr? {
        assert ReqForm(leq, a) == Some(Arr(Sort(leq, v.items)));
        SortedTexts(leq, v.items);
      } else {
        assert ReqForm(leq, a) == Some(v);
      }
    }
  }

  // ------------------------------------------------------------------ comparing two merges

  /** Enough for two merges to be the same up to normal form. */
  ghost predicate SameInputs(leq: Order, a: Json, b: Json, a': Json, b': Json)
    requires a.Obj? && b.Obj? && a'.Obj? && b'.Obj?
  {
    && (Guards(leq, a, b) <==> Guards(leq, a', b'))
    && (Guards(leq, a, b) && Guards(leq, a', b') ==>
          && RequiredSet(a.fields) == RequiredSet(a'.fields)
          && (forall n :: SameJoined(leq, JoinAt(leq, a, b, n), JoinAt(leq, a', b', n)))
          && (PropertiesKey in a.fields || PropertiesKey in b.fields <==> PropertiesKey in a'.fields || PropertiesKey in b'.fields)
          && OthersSame(leq, a.fields, a'.fields))
  }

  lemma ViewsSame(leq: Order, a: Json, b: Json, m: Json, a': Json, b': Json, m': Json)
    requires TotalOrder(leq) && a.Obj? && b.Obj? && a'.Obj? && b'.Obj?
    requires Guards(leq, a, b) && Guards(leq, a', b') && MergeView(leq, a, b, m) && MergeView(leq, a', b', m')
    requires SameInputs(leq, a, b, a', b')
    ensures Sem(leq, m) == Sem(leq, m')
  {
    CanonicalSame(leq, m.fields, m'.fields, RequiredSet(a.fields).value);
    forall n ensures SameJoined(leq, Lookup(Props(m.fields).value, n), Lookup(Props(m'.fields).value, n)) {
      assert SameJoined(leq, JoinAt(leq, a, b, n), JoinAt(leq, a', b', n));
    }
    SemFromParts(leq, m, m');
  }

  lemma MergesSame(leq: Order, a: Json, b: Json, a': Json, b': Json)
    requires TotalOrder(leq) && a.Obj? && b.Obj? && a'.Obj? && b'.Obj? && SameInputs(leq, a, b, a', b')
    ensures Same(leq, Merge(leq, a, b), Merge(leq, a', b'))
  {
    MergeByParts(leq, a, b);
    MergeByParts(leq, a', b');
    if Guards(leq, a, b) {
      forall n ensures JoinAt(leq, a, b, n).Fail? <==> JoinAt(leq, a', b', n).Fail? {
        assert SameJoined(leq, JoinAt(leq, a, b, n), JoinAt(leq, a', b', n));
      }
      if Merge(leq, a, b).Some? {
        ViewsSame(leq, a, b, Merge(leq, a, b).value, a', b', Merge(leq, a', b').value);
      }
    }
  }

  // ------------------------------------------------------------------ congruence

  lemma GuardsCongruent(leq: Order, a: Json, b: Json, a': Json, b': Json)
    requires a.Obj? && b.Obj? && a'.Obj? && b'.Obj?
    requires SameParts(leq, a, a') && SameParts(leq, b, b') && Guards(leq, a, b)
    ensures Guards(leq, a', b')
  {
    RequiredFromForm(leq, a.fields, a'.fields);
    RequiredFromForm(leq, b.fields, b'.fields);
  }

  lemma {:induction false} BothCongruent(leq: Order, n: Text, x: Json, y: Json, x': Json, y': Json)
    requires TotalOrder(leq) && WellFormedChild(x) && WellFormedChild(y) && WellFormedChild(x') && WellFormedChild(y')
    requires Sem(leq, x) == Sem(leq, x') && Sem(leq, y) == Sem(leq, y')
    ensures Same(leq, MergeBoth(leq, n, x, y), MergeBoth(leq, n, x', y'))
    decreases x, 2
  {
    if x.Obj? && y.Obj? {
      MergeCongruent(leq, x, y, x', y');
    } else {
      if x.Obj? { ObjectsStayObjects(leq, n, x); ObjectsStayObjects(leq, n, x'); }
      if y.Obj? { ObjectsStayObjects(leq, n, y); ObjectsStayObjects(leq, n, y'); }
    }
  }

  /** Schemas with the same normal form merge alike. */
  lemma {:induction false} MergeCongruent(leq: Order, a: Json, b: Json, a': Json, b': Json)
    requires TotalOrder(leq)
    requires WellFormedSchema(a) && WellFormedSchema(b) && WellFormedSchema(a') && WellFormedSchema(b')
    requires Sem(leq, a) == Sem(leq, a') && Sem(leq, b) == Sem(leq, b')
    ensures Same(leq, Merge(leq, a, b), Merge(leq, a', b'))
    decreases a, 1
  {
    PartsFromSem(leq, a, a');
    PartsFromSem(leq, b, b');
    PartsFromSem(leq, a', a);
    PartsFromSem(leq, b', b);
    if Guards(leq, a, b) { GuardsCongruent(leq, a, b, a', b'); }
    if Guards(leq, a', b') { GuardsCongruent(leq, a', b', a, b); }
    if Guards(leq, a, b) {
      RequiredFromForm(leq, a.fields, a'.fields);
      forall n ensures SameJoined(leq, JoinAt(leq, a, b, n), JoinAt(leq, a', b', n)) {
        var (pa, pb, pa', pb') := (Props(a.fields).value, Props(b.fields).value, Props(a'.fields).value, Props(b'.fields).value);
        assert SameJoined(leq, Lookup(pa, n), Lookup(pa', n)) && SameJoined(leq, Lookup(pb, n), Lookup(pb', n));
        if n in pa && n in pb {
          ChildWellFormed(a, n); ChildWellFormed(b, n); ChildWellFormed(a', n); ChildWellFormed(b', n);
          BothCongruent(leq, n, pa[n], pb[n], pa'[n], pb'[n]);
        }
      }
    }
    MergesSame(leq, a, b, a', b');
  }

  // ------------------------------------------------------------------ commutativity

  lemma {:induction false} BothCommute(leq: Order, n: Text, x: Json, y: Json)
    requires TotalOrder(leq) && WellFormedChild(x) && WellFormedChild(y)
    ensures Same(leq, MergeBoth(leq, n, x, y), MergeBoth(leq, n, y, x))
    decreases x, 2
  {
    if x.Obj? && y.Obj? {
      MergeCommutes(leq, x, y);
    } else {
      if x.Obj? { ObjectsStayObjects(leq, n, x); }
      if y.Obj? { ObjectsStayObjects(leq, n, y); }
    }
  }

  /** Merging in the other order is defined alike and gives the same normal form. */
  lemma {:induction false} MergeCommutes(leq: Order, a: Json, b: Json)
    requires TotalOrder(leq) && WellFormedSchema(a) && WellFormedSchema(b)
    ensures Same(leq, Merge(leq, a, b), Merge(leq, b, a))
    decreases a, 1
  {
    assert OthersAgree(leq, a.fields, b.fields) <==> OthersAgree(leq, b.fields, a.fields);
    if Guards(leq, a, b) {
      forall n ensures SameJoined(leq, JoinAt(leq, a, b, n), JoinAt(leq, b, a, n)) {
        var pa, pb := Props(a.fields).value, Props(b.fields).value;
        if n in pa && n in pb {
          ChildWellFormed(a, n); ChildWellFormed(b, n);
          BothCommute(leq, n, pa[n], pb[n]);
        }
      }
    }
    MergesSame(leq, a, b, b, a);
  }

  // ------------------------------------------------------------------ the merge of well-formed schemas is well formed

  lemma {:induction false} MergeWellFormed(leq: Order, a: Json, b: Json)
    requires TotalOrder(leq) && WellFormedSchema(a) && WellFormedSchema(b) && Merge(leq, a, b).Some?
    ensures WellFormedSchema(Merge(leq, a, b).value)
    decreases a, 1
  {
    var m := Merge(leq, a, b).value;
    MergeViewed(leq, a, b);
    var pm := Props(m.fields).value;
    forall n | n in pm ensures WellFormedChild(pm[n]) { MergedChildWellFormed(leq, a, b, m, n); }
  }

  lemma {:induction false} MergedChildWellFormed(leq: Order, a: Json, b: Json, m: Json, n: Text)
    requires TotalOrder(leq) && WellFormedSchema(a) && WellFormedSchema(b) && Guards(leq, a, b) && MergeView(leq, a, b, m)
    requires n in Props(m.fields).value
    ensures WellFormedChild(Props(m.fields).value[n])
    decreases a, 0
  {
    var (pa, pb) := (Props(a.fields).value, Props(b.fields).value);
    assert Lookup(Props(m.fields).value, n) == JoinAt(leq, a, b, n);
    if n in pa { ChildWellFormed(a, n); }
    if n in pb { ChildWellFormed(b, n); }
    if n in pa && n in pb && pa[n].Obj? && pb[n].Obj? { MergeWellFormed(leq, pa[n], pb[n]); }
  }

  // ------------------------------------------------------------------ associativity

  /** Merging what may already have failed. */
  function Plus(leq: Order, x: Option<Json>, y: Option<Json>): Option<Json> {
    match (x, y)
    case (Some(a), Some(b)) => MergeMaps(leq, a, b)
    case _ => None
  }

  lemma GuardsOfMerge(leq: Order, a: Json, b: Json, m: Json, c: Json)
    requires a.Obj? && b.Obj? && c.Obj? && Guards(leq, a, b) && MergeView(leq, a, b, m)
    ensures Guards(leq, m, c) <==> Guards(leq, a, c)
    ensures Guards(leq, c, m) <==> Guards(leq, c, a)
  {
  }

  lemma GuardsEquivalence(leq: Order, a: Json, b: Json, c: Json)
    requires a.Obj? && b.Obj? && c.Obj?
    ensures Guards(leq, a, b) <==> Guards(leq, b, a)
    ensures Guards(leq, a, b) && Guards(leq, b, c) ==> Guards(leq, a, c)
  {
  }

  lemma BooleansStay(leq: Order, n: Text, c: Json)
    requires c.Bool?
    ensures SemValue(leq, n, c) == c
  {
  }

  /** Objects merge with objects, and booleans only with their like. */
  lemma BothKind(leq: Order, n: Text, x: Json, y: Json)
    requires WellFormedChild(x) && WellFormedChild(y)
    ensures !x.Obj? || !y.Obj? ==> MergeBoth(leq, n, x, y) == if x == y then Some(x) else None
    ensures x.Obj? && y.Obj? ==> MergeBoth(leq, n, x, y) == Merge(leq, x, y)
  {
    if x.Obj? { ObjectsStayObjects(leq, n, x); } else { BooleansStay(leq, n, x); }
    if y.Obj? { ObjectsStayObjects(leq, n, y); } else { BooleansStay(leq, n, y); }
  }

  ghost function TwoStep(leq: Order, n: Text, x: Json, y: Json, z: Json, left: bool): Joined {
    if left then Join(leq, n, Join(leq, n, Present(x), Present(y), false), Present(z), false)
    else Join(leq, n, Present(x), Join(leq, n, Present(y), Present(z), false), false)
  }

  lemma JoinPresent(leq: Order, n: Text, x: Json, y: Json)
    requires WellFormedChild(x) && WellFormedChild(y) && !(x.Obj? && y.Obj?)
    ensures Join(leq, n, Present(x), Present(y), false) == if x == y then Present(x) else Fail
  {
    BothKind(leq, n, x, y);
  }

  lemma JoinObjects(leq: Order, n: Text, x: Json, y: Json)
    requires TotalOrder(leq) && WellFormedSchema(x) && WellFormedSchema(y)
    ensures var j := Join(leq, n, Present(x), Present(y), false);
            j.Fail? || (j.Present? && WellFormedSchema(j.schema))
    ensures Join(leq, n, Present(x), Present(y), false) ==
              if Merge(leq, x, y).Some? then Present(Merge(leq, x, y).value) else Fail
  {
    if Merge(leq, x, y).Some? { MergeWellFormed(leq, x, y); }
  }

  /** With a boolean among the three, they agree only if all three are equal. */
  lemma BooleansLeft(leq: Order, n: Text, x: Json, y: Json, z: Json)
    requires TotalOrder(leq) && WellFormedChild(x) && WellFormedChild(y) && WellFormedChild(z)
    requires !(x.Obj? && y.Obj? && z.Obj?)
    ensures TwoStep(leq, n, x, y, z, true) == if x == y == z then Present(x) else Fail
  {
    var j := Join(leq, n, Present(x), Present(y), false);
    if x.Obj? && y.Obj? { JoinObjects(leq, n, x, y); } else { JoinPresent(leq, n, x, y); }
    if j.Present? { JoinPresent(leq, n, j.schema, z); }
  }

  lemma BooleansRight(leq: Order, n: Text, x: Json, y: Json, z: Json)
    requires TotalOrder(leq) && WellFormedChild(x) && WellFormedChild(y) && WellFormedChild(z)
    requires !(x.Obj? && y.Obj? && z.Obj?)
    ensures TwoStep(leq, n, x, y, z, false) == if x == y == z then Present(x) else Fail
  {
    var j := Join(leq, n, Present(y), Present(z), false);
    if y.Obj? && z.Obj? { JoinObjects(leq, n, y, z); } else { JoinPresent(leq, n, y, z); }
    if j.Present? { JoinPresent(leq, n, x, j.schema); }
  }

  lemma {:induction false} BothAssociate(leq: Order, n: Text, x: Json, y: Json, z: Json)
    requires TotalOrder(leq) && WellFormedChild(x) && WellFormedChild(y) && WellFormedChild(z)
    ensures SameJoined(leq, TwoStep(leq, n, x, y, z, true), TwoStep(leq, n, x, y, z, false))
    decreases x, 2
  {
    if x.Obj? && y.Obj? && z.Obj? {
      MergeAssociates(leq, x, y, z);
      TwoStepIsPlus(leq, n, x, y, z);
    } else {
      BooleansLeft(leq, n, x, y, z);
      BooleansRight(leq, n, x, y, z);
    }
  }

  ghost function AsJoined(x: Option<Json>): Joined {
    if x.Some? then Present(x.value) else Fail
  }

  lemma TwoStepIsPlus(leq: Order, n: Text, x: Json, y: Json, z: Json)
    requires TotalOrder(leq) && WellFormedSchema(x) && WellFormedSchema(y) && WellFormedSchema(z)
    ensures TwoStep(leq, n, x, y, z, true) == AsJoined(Plus(leq, Merge(leq, x, y), Some(z)))
    ensures TwoStep(leq, n, x, y, z, false) == AsJoined(Plus(leq, Some(x), Merge(leq, y, z)))
  {
    JoinObjects(leq, n, x, y);
    JoinObjects(leq, n, y, z);
    if Merge(leq, x, y).Some? { JoinObjects(leq, n, Merge(leq, x, y).value, z); }
    if Merge(leq, y, z).Some? { JoinObjects(leq, n, x, Merge(leq, y, z).value); }
  }

  /** Three sides of one property, grouped either way. */
  ghost predicate JoinsAssociate(leq: Order, n: Text, x: Joined, y: Joined, z: Joined, r: bool) {
    SameJoined(leq, Join(leq, n, Join(leq, n, x, y, r), z, r), Join(leq, n, x, Join(leq, n, y, z, r), r))
  }

  lemma SomeAbsent(leq: Order, n: Text, x: Joined, y: Joined, z: Joined, r: bool)
    requires !x.Fail? && !y.Fail? && !z.Fail? && (x.Absent? || y.Absent? || z.Absent?)
    ensures JoinsAssociate(leq, n, x, y, z, r)
  {
  }

  lemma AllPresent(leq: Order, n: Text, x: Json, y: Json, z: Json, r: bool)
    requires SameJoined(leq, TwoStep(leq, n, x, y, z, true), TwoStep(leq, n, x, y, z, false))
    ensures JoinsAssociate(leq, n, Present(x), Present(y), Present(z), r)
  {
  }

  /** The three-way join of a property, grouped to the left. */
  ghost function LeftJoin(leq: Order, a: Json, b: Json, c: Json, n: Text): Joined
    requires a.Obj? && b.Obj? && c.Obj? && Guards(leq, a, b) && Guards(leq, b, c)
  {
    Join(leq, n, JoinAt(leq, a, b, n), Lookup(Props(c.fields).value, n), n in RequiredSet(a.fields).value)
  }

  ghost function RightJoin(leq: Order, a: Json, b: Json, c: Json, n: Text): Joined
    requires a.Obj? && b.Obj? && c.Obj? && Guards(leq, a, b) && Guards(leq, b, c)
  {
    Join(leq, n, Lookup(Props(a.fields).value, n), JoinAt(leq, b, c, n), n in RequiredSet(a.fields).value)
  }

  lemma LeftMerge(leq: Order, a: Json, b: Json, c: Json)
    requires TotalOrder(leq) && a.Obj? && b.Obj? && c.Obj? && Guards(leq, a, b) && Guards(leq, b, c)
    ensures var r := Plus(leq, Merge(leq, a, b), Some(c));
            (r.Some? <==> forall n :: !LeftJoin(leq, a, b, c, n).Fail?) &&
            (r.Some? ==> ThreeWay(leq, a, b, c, r.value, true))
  {
    MergeByParts(leq, a, b);
    forall n ensures JoinAt(leq, a, b, n).Fail? ==> LeftJoin(leq, a, b, c, n).Fail? { }
    if Merge(leq, a, b).Some? {
      var m := Merge(leq, a, b).value;
      GuardsEquivalence(leq, a, b, c);
      GuardsOfMerge(leq, a, b, m, c);
      MergeByParts(leq, m, c);
      forall n ensures JoinAt(leq, m, c, n) == LeftJoin(leq, a, b, c, n) { }
    }
  }

  lemma RightMerge(leq: Order, a: Json, b: Json, c: Json)
    requires TotalOrder(leq) && a.Obj? && b.Obj? && c.Obj? && Guards(leq, a, b) && Guards(leq, b, c)
    ensures var r := Plus(leq, Some(a), Merge(leq, b, c));
            (r.Some? <==> forall n :: !RightJoin(leq, a, b, c, n).Fail?) &&
            (r.Some? ==> ThreeWay(leq, a, b, c, r.value, false))
  {
    MergeByParts(leq, b, c);
    forall n ensures JoinAt(leq, b, c, n).Fail? ==> RightJoin(leq, a, b, c, n).Fail? { }
    if Merge(leq, b, c).Some? {
      var m := Merge(leq, b, c).value;
      GuardsOfMerge(leq, b, c, m, a);
      MergeByParts(leq, a, m);
      forall n ensures JoinAt(leq, a, m, n) == RightJoin(leq, a, b, c, n) { }
    }
  }

  /** What is known of a three-way merge, whichever way it was grouped. */
  ghost predicate ThreeWay(leq: Order, a: Json, b: Json, c: Json, m: Json, left: bool)
    requires a.Obj? && b.Obj? && c.Obj? && Guards(leq, a, b) && Guards(leq, b, c)
  {
    && m.Obj? && CanonicalRequired(leq, m.fields, RequiredSet(a.fields).value) && Props(m.fields).Some?
    && (PropertiesKey in m.fields <==> PropertiesKey in a.fields || PropertiesKey in b.fields || PropertiesKey in c.fields)
    && (forall n :: Lookup(Props(m.fields).value, n) ==
          if left then LeftJoin(leq, a, b, c, n) else RightJoin(leq, a, b, c, n))
    && (forall k :: !Special(k) ==> (k in m.fields <==> k in a.fields) && (k in a.fields ==> m.fields[k] == a.fields[k]))
  }

  lemma ThreeWaySame(leq: Order, a: Json, b: Json, c: Json, m: Json, m': Json)
    requires TotalOrder(leq) && a.Obj? && b.Obj? && c.Obj? && Guards(leq, a, b) && Guards(leq, b, c)
    requires ThreeWay(leq, a, b, c, m, true) && ThreeWay(leq, a, b, c, m', false)
    requires forall n :: SameJoined(leq, LeftJoin(leq, a, b, c, n), RightJoin(leq, a, b, c, n))
    ensures Sem(leq, m) == Sem(leq, m')
  {
    CanonicalSame(leq, m.fields, m'.fields, RequiredSet(a.fields).value);
    forall n ensures SameJoined(leq, Lookup(Props(m.fields).value, n), Lookup(Props(m'.fields).value, n)) {
      assert SameJoined(leq, LeftJoin(leq, a, b, c, n), RightJoin(leq, a, b, c, n));
    }
    SemFromParts(leq, m, m');
  }

  /** A merge that is defined has its guards. */
  lemma MergeGuarded(leq: Order, a: Json, b: Json)
    requires TotalOrder(leq) && a.Obj? && b.Obj? && Merge(leq, a, b).Some?
    ensures Guards(leq, a, b) && Merge(leq, a, b).value.Obj?
    ensures MergeView(leq, a, b, Merge(leq, a, b).value)
  {
    MergeByParts(leq, a, b);
  }

  lemma LeftGuarded(leq: Order, a: Json, b: Json, c: Json)
    requires TotalOrder(leq) && a.Obj? && b.Obj? && c.Obj? && Merge(leq, a, b).Some?
    requires Merge(leq, Merge(leq, a, b).value, c).Some?
    ensures Guards(leq, a, b) && Guards(leq, b, c)
  {
    MergeGuarded(leq, a, b);
    var m := Merge(leq, a, b).value;
    MergeGuarded(leq, m, c);
    GuardsOfMerge(leq, a, b, m, c);
    GuardsEquivalence(leq, a, b, c);
    GuardsEquivalence(leq, b, a, c);
  }

  lemma RightGuarded(leq: Order, a: Json, b: Json, c: Json)
    requires TotalOrder(leq) && a.Obj? && b.Obj? && c.Obj? && Merge(leq, b, c).Some?
    requires Merge(leq, a, Merge(leq, b, c).value).Some?
    ensures Guards(leq, a, b) && Guards(leq, b, c)
  {
    MergeGuarded(leq, b, c);
    var m := Merge(leq, b, c).value;
    MergeGuarded(leq, a, m);
    GuardsOfMerge(leq, b, c, m, a);
  }

  /** Without the guards neither grouping is defined. */
  lemma UnguardedFails(leq: Order, a: Json, b: Json, c: Json)
    requires TotalOrder(leq) && a.Obj? && b.Obj? && c.Obj? && !(Guards(leq, a, b) && Guards(leq, b, c))
    ensures Plus(leq, Merge(leq, a, b), Some(c)).None? && Plus(leq, Some(a), Merge(leq, b, c)).None?
  {
    if Merge(leq, a, b).Some? {
      MergeGuarded(leq, a, b);
      if Merge(leq, Merge(leq, a, b).value, c).Some? { LeftGuarded(leq, a, b, c); }
    }
    if Merge(leq, b, c).Some? {
      MergeGuarded(leq, b, c);
      if Merge(leq, a, Merge(leq, b, c).value).Some? { RightGuarded(leq, a, b, c); }
    }
  }

  /** Grouping does not matter. */
  lemma {:induction false} MergeAssociates(leq: Order, a: Json, b: Json, c: Json)
    requires TotalOrder(leq) && WellFormedSchema(a) && WellFormedSchema(b) && WellFormedSchema(c)
    ensures Same(leq, Plus(leq, Merge(leq, a, b), Some(c)), Plus(leq, Some(a), Merge(leq, b, c)))
    decreases a, 1
  {
    if Guards(leq, a, b) && Guards(leq, b, c) {
      var (pa, pb, pc) := (Props(a.fields).value, Props(b.fields).value, Props(c.fields).value);
      forall n ensures SameJoined(leq, LeftJoin(leq, a, b, c, n), RightJoin(leq, a, b, c, n)) {
        var r := n in RequiredSet(a.fields).value;
        if n in pa && n in pb && n in pc {
          ChildWellFormed(a, n); ChildWellFormed(b, n); ChildWellFormed(c, n);
          BothAssociate(leq, n, pa[n], pb[n], pc[n]);
          AllPresent(leq, n, pa[n], pb[n], pc[n], r);
        } else {
          SomeAbsent(leq, n, Lookup(pa, n), Lookup(pb, n), Lookup(pc, n), r);
        }
        assert JoinsAssociate(leq, n, Lookup(pa, n), Lookup(pb, n), Lookup(pc, n), r);
      }
      LeftMerge(leq, a, b, c);
      RightMerge(leq, a, b, c);
      if Plus(leq, Merge(leq, a, b), Some(c)).Some? {
        ThreeWaySame(leq, a, b, c, Plus(leq, Merge(leq, a, b), Some(c)).value, Plus(leq, Some(a), Merge(leq, b, c)).value);
      }
    } else {
      UnguardedFails(leq, a, b, c);
    }
  }

  // ------------------------------------------------------------------ any number of providers

  /** A schema a provider may publish: a well-formed object, or none at all. */
  ghost predicate Publishable(s: Json) {
    s == Null || WellFormedSchema(s)
  }

  /** Merging the schemas of a tool's providers one after the other. */
  function MergeList(leq: Order, xs: seq<Json>): Option<Json>
    requires xs != []
  {
    if |xs| == 1 then Some(xs[0]) else Plus(leq, MergeList(leq, xs[..|xs| - 1]), Some(xs[|xs| - 1]))
  }

  ghost predicate PublishableResult(x: Option<Json>) {
    x.Some? ==> Publishable(x.value)
  }

  lemma PlusPublishable(leq: Order, x: Option<Json>, y: Option<Json>)
    requires TotalOrder(leq) && PublishableResult(x) && PublishableResult(y)
    ensures PublishableResult(Plus(leq, x, y))
  {
    if x.Some? && y.Some? && x.value.Obj? && y.value.Obj? && Merge(leq, x.value, y.value).Some? {
      MergeWellFormed(leq, x.value, y.value);
    }
  }

  lemma PlusCommutes(leq: Order, x: Option<Json>, y: Option<Json>)
    requires TotalOrder(leq) && PublishableResult(x) && PublishableResult(y)
    ensures Same(leq, Plus(leq, x, y), Plus(leq, y, x))
  {
    if x.Some? && y.Some? && x.value.Obj? && y.value.Obj? { MergeCommutes(leq, x.value, y.value); }
  }

  lemma PlusCongruent(leq: Order, x: Option<Json>, x': Option<Json>, y: Option<Json>)
    requires TotalOrder(leq) && PublishableResult(x) && PublishableResult(x') && PublishableResult(y)
    requires Same(leq, x, x')
    ensures Same(leq, Plus(leq, x, y), Plus(leq, x', y))
  {
    if x.Some? && y.Some? && x.value.Obj? && y.value.Obj? { MergeCongruent(leq, x.value, y.value, x'.value, y.value); }
  }

  lemma PlusAssociates(leq: Order, x: Option<Json>, y: Option<Json>, z: Option<Json>)
    requires TotalOrder(leq) && PublishableResult(x) && PublishableResult(y) && PublishableResult(z)
    ensures Same(leq, Plus(leq, Plus(leq, x, y), z), Plus(leq, x, Plus(leq, y, z)))
  {
    if x.Some? && y.Some? && z.Some? && x.value.Obj? && y.value.Obj? && z.value.Obj? {
      MergeAssociates(leq, x.value, y.value, z.value);
    }
  }

  ghost predicate AllPublishable(xs: seq<Json>) {
    forall i :: 0 <= i < |xs| ==> Publishable(xs[i])
  }

  lemma {:induction false} ListPublishable(leq: Order, xs: seq<Json>)
    requires TotalOrder(leq) && xs != [] && AllPublishable(xs)
    ensures PublishableResult(MergeList(leq, xs))
  {
    if |xs| > 1 {
      ListPublishable(leq, xs[..|xs| - 1]);
      PlusPublishable(leq, MergeList(leq, xs[..|xs| - 1]), Some(xs[|xs| - 1]));
    }
  }

  /** The merge of optional schemas as an operation on results. */
  ghost function Merging(leq: Order): Algebra<Option<Json>> {
    Algebra((x, y) => Plus(leq, x, y), (x, y) => Same(leq, x, y), x => PublishableResult(x))
  }

  lemma MergingCloses(leq: Order)
    requires TotalOrder(leq)
    ensures Folding.Closed(Merging(leq)) && Folding.Commutes(Merging(leq)) && Folding.Transitive(Merging(leq)) && Folding.Reflexive(Merging(leq))
  {
    var a := Merging(leq);
    forall x, y | a.good(x) && a.good(y) ensures a.good(a.op(x, y)) && a.same(a.op(x, y), a.op(y, x)) {
      PlusPublishable(leq, x, y);
      PlusCommutes(leq, x, y);
    }
  }

  lemma MergingIsCongruent(leq: Order)
    requires TotalOrder(leq)
    ensures Folding.Congruent(Merging(leq))
  {
    var a := Merging(leq);
    forall x, x', y | a.good(x) && a.good(x') && a.good(y) && a.same(x, x') ensures a.same(a.op(x, y), a.op(x', y)) {
      PlusCongruent(leq, x, x', y);
    }
  }

  lemma MergingAssociates(leq: Order)
    requires TotalOrder(leq)
    ensures Folding.Associates(Merging(leq))
  {
    var a := Merging(leq);
    forall x, y, z | a.good(x) && a.good(y) && a.good(z)
      ensures a.same(a.op(a.op(x, y), z), a.op(x, a.op(y, z))) && a.same(a.op(x, a.op(y, z)), a.op(a.op(x, y), z))
    {
      PlusAssociates(leq, x, y, z);
    }
  }

  function Some1(x: Json): Option<Json> { Some(x) }

  lemma {:induction false} MergeListFolds(leq: Order, xs: seq<Json>)
    requires xs != []
    ensures MergeList(leq, xs) == Fold(Merging(leq), Map(xs, Some1))
    decreases |xs|
  {
    var (n, a, all) := (|xs| - 1, Merging(leq), Map(xs, Some1));
    assert all[n] == Some(xs[n]);
    if n > 0 {
      MergeListFolds(leq, xs[..n]);
      assert all[..n] == Map(xs[..n], Some1);
      assert Fold(a, all) == a.op(Fold(a, all[..n]), all[n]);
    }
  }

  /** Main result: whether the providers' schemas merge, and into which normal form, does not depend on their order. */
  lemma MergeIgnoresOrder(leq: Order, xs: seq<Json>, ys: seq<Json>)
    requires TotalOrder(leq) && xs != [] && AllPublishable(xs) && multiset(xs) == multiset(ys)
    ensures ys != [] && Same(leq, MergeList(leq, xs), MergeList(leq, ys))
  {
    var a := Merging(leq);
    MergingCloses(leq);
    MergingIsCongruent(leq);
    MergingAssociates(leq);
    MapBag(xs, ys, Some1);
    assert AllGood(a, Map(xs, Some1));
    FoldIgnoresOrder(a, Map(xs, Some1), Map(ys, Some1));
    MergeListFolds(leq, xs);
    MergeListFolds(leq, ys);
  }
}
