/**
 What single announcements mean and what becomes of them: visibility, contracts, hints, the form in which a tool is listed, and
 the snapshot a Hello leaves.
 */
module FleetLaws {
  import opened Wrappers
  import opened SchemaModel
  import opened SchemaAlgebra
  import opened SchemaOrder
  import opened SchemaMeaning
  import opened FleetTools
  import opened Names
  import C = Catalogue

  // ------------------------------------------------------------------ visibility

  /** The metadata declare no surfaces. */
  predicate Undeclared(meta: Fields) { Ui !in meta || (meta[Ui].Obj? && Visibility !in meta[Ui].fields) }

  /** They declare a list of them. */
  predicate Declares(meta: Fields, items: seq<Json>) {
    Ui in meta && meta[Ui].Obj? && Visibility in meta[Ui].fields && meta[Ui].fields[Visibility] == Arr(items) && items != [] &&
    forall x :: x in items ==> x == Str(ModelName) || x == Str(AppName)
  }

  /** Without a declaration a tool is for both; a declaration has to be a list of the two names and says it exactly. */
  lemma VisibilityMeans(meta: Fields)
    ensures Undeclared(meta) ==> VisibilityOf(meta) == Some([ModelName, AppName])
    ensures VisibilityOf(meta).Some? <==> Undeclared(meta) || exists items :: Declares(meta, items)
    ensures forall items :: Declares(meta, items) ==>
      VisibilityOf(meta).Some? && (ModelName in VisibilityOf(meta).value <==> Str(ModelName) in items) &&
      (AppName in VisibilityOf(meta).value <==> Str(AppName) in items)
  {
    if !Undeclared(meta) && VisibilityOf(meta).Some? {
      var items := meta[Ui].fields[Visibility].items;
      forall x | x in items ensures x == Str(ModelName) || x == Str(AppName) { }
      assert Declares(meta, items);
    }
    forall items | Declares(meta, items) ensures Faces(items) {
      forall i | 0 <= i < |items| ensures items[i] == Str(ModelName) || items[i] == Str(AppName) { assert items[i] in items; }
    }
  }

  /** Apart from the UI entry the metadata are the same. */
  ghost predicate SameBesidesUi(m: Fields, n: Fields) {
    forall k :: k != Ui ==> (k in m <==> k in n) && (k in m && k in n ==> m[k] == n[k])
  }

  lemma FieldTells(one: seq<Text>, other: seq<Text>)
    requires one == [ModelName] || one == [AppName] || one == [ModelName, AppName]
    requires other == [ModelName] || other == [AppName] || other == [ModelName, AppName]
    ensures VisibilityField(one) == VisibilityField(other) <==> one == other
  {
    var (xs, ys) := (VisibilityField(one).fields[Visibility].items, VisibilityField(other).fields[Visibility].items);
    assert |xs| == |one| && |ys| == |other|;
    if VisibilityField(one) == VisibilityField(other) {
      assert xs == ys;
      forall i | 0 <= i < |one| ensures one[i] == other[i] { assert xs[i] == Str(one[i]) && ys[i] == Str(other[i]); }
    }
  }

  lemma ExecutionFields(m: Fields)
    requires VisibilityOf(m).Some?
    ensures ExecutionMeta(m).Some? && Ui in ExecutionMeta(m).value &&
      ExecutionMeta(m).value[Ui] == VisibilityField(VisibilityOf(m).value) && SameBesidesUi(ExecutionMeta(m).value, m)
  {
  }

  lemma SameFields(m: Fields, n: Fields)
    requires Ui in m && Ui in n
    ensures m == n <==> m[Ui] == n[Ui] && SameBesidesUi(m, n)
  {
    if m[Ui] == n[Ui] && SameBesidesUi(m, n) {
      forall k ensures (k in m <==> k in n) && (k in m ==> m[k] == n[k]) { if k != Ui { assert k in m <==> k in n; } }
    }
  }

  lemma BesidesThrough(em: Fields, m: Fields, en: Fields, n: Fields)
    requires SameBesidesUi(em, m) && SameBesidesUi(en, n)
    ensures SameBesidesUi(em, en) <==> SameBesidesUi(m, n)
  {
    forall k | k != Ui ensures (k in em <==> k in m) && (k in en <==> k in n) && (k in m ==> em[k] == m[k]) && (k in n ==> en[k] == n[k]) { }
  }

  lemma SurfacesTold(m: Fields, n: Fields)
    requires VisibilityOf(m).Some? && VisibilityOf(n).Some?
    ensures VisibilityField(VisibilityOf(m).value) == VisibilityField(VisibilityOf(n).value) <==> VisibilityOf(m) == VisibilityOf(n)
  {
    FacesCases(m);
    FacesCases(n);
    FieldTells(VisibilityOf(m).value, VisibilityOf(n).value);
  }

  /** Execution metadata agree exactly when the surfaces do and everything besides the UI entry does. */
  lemma SameExecution(m: Fields, n: Fields)
    requires VisibilityOf(m).Some? && VisibilityOf(n).Some?
    ensures ExecutionMeta(m).Some? && ExecutionMeta(n).Some?
    ensures ExecutionMeta(m) == ExecutionMeta(n) <==> VisibilityOf(m) == VisibilityOf(n) && SameBesidesUi(m, n)
  {
    SurfacesTold(m, n);
    ExecutionFields(m);
    ExecutionFields(n);
    var (em, en) := (ExecutionMeta(m).value, ExecutionMeta(n).value);
    SameFields(em, en);
    BesidesThrough(em, m, en, n);
  }

  /** Two tools have the same contract exactly when their schemas say the same, on the same surfaces with the same other metadata. */
  lemma SameContract(leq: Order, d: Descriptor, e: Descriptor)
    requires TotalOrder(leq) && VisibilityOf(d.meta).Some? && VisibilityOf(e.meta).Some?
    ensures ContractOf(leq, d).Some? && ContractOf(leq, e).Some?
    ensures ContractOf(leq, d) == ContractOf(leq, e) <==>
      Akin(d.input, e.input) && Akin(d.output, e.output) && VisibilityOf(d.meta) == VisibilityOf(e.meta) && SameBesidesUi(d.meta, e.meta)
  {
    AkinIsSameForm(leq, d.input, e.input);
    AkinIsSameForm(leq, d.output, e.output);
    SameExecution(d.meta, e.meta);
  }

  /** Every provider shares name, surfaces and other metadata with the first. */
  ghost predicate Agreeing(ds: seq<Descriptor>)
    requires ds != []
  {
    VisibilityOf(ds[0].meta).Some? &&
    forall i :: 0 <= i < |ds| ==>
      ds[i].name == ds[0].name && VisibilityOf(ds[i].meta) == VisibilityOf(ds[0].meta) && SameBesidesUi(ds[i].meta, ds[0].meta)
  }

  lemma AgreeingMeans(ds: seq<Descriptor>)
    requires ds != []
    ensures Agreeing(ds) <==> Compatible(ds)
  {
    forall i | 0 <= i < |ds| && VisibilityOf(ds[i].meta).Some? && VisibilityOf(ds[0].meta).Some?
      ensures ExecutionMeta(ds[i].meta).Some? &&
        (ExecutionMeta(ds[i].meta) == ExecutionMeta(ds[0].meta) <==>
          VisibilityOf(ds[i].meta) == VisibilityOf(ds[0].meta) && SameBesidesUi(ds[i].meta, ds[0].meta))
    {
      SameExecution(ds[i].meta, ds[0].meta);
    }
  }

  /**
   Main result: a tool is published exactly when some node announces it, all announce it under one name, for the same surfaces
   and with the same other metadata, and both kinds of schemas merge. It keeps name, title and description of the first node, and
   the contract of every provider is accepted, and no other.
   */
  lemma PublishedFor(rules: Rules, ds: seq<Descriptor>)
    ensures MergeDescriptors(rules, ds).Some? <==>
      ds != [] && Agreeing(ds) && MergeList(rules.leq, Inputs(ds)).Some? && MergeList(rules.leq, Outputs(rules, ds)).Some?
    ensures MergeDescriptors(rules, ds).Some? ==>
      var p := MergeDescriptors(rules, ds).value;
      ds != [] && p.descriptor.name == ds[0].name && p.descriptor.title == ds[0].title &&
      p.descriptor.description == ds[0].description && MergeList(rules.leq, Inputs(ds)) == Some(p.descriptor.input) &&
      MergeList(rules.leq, Outputs(rules, ds)) == Some(p.descriptor.output) &&
      forall c :: c in p.accepted <==> exists i :: 0 <= i < |ds| && ContractOf(rules.leq, ds[i]) == Some(c)
  {
    PublishedExactlyWhen(rules, ds);
    if ds != [] { AgreeingMeans(ds); }
  }

  // ------------------------------------------------------------------ hints

  /** Every provider says this about the hint. */
  predicate AllSay(ds: seq<Descriptor>, key: Text, value: bool) {
    forall i :: 0 <= i < |ds| ==> key in ds[i].annotations && ds[i].annotations[key] == Bool(value)
  }

  predicate SomeAnnotations(ds: seq<Descriptor>) { exists i :: 0 <= i < |ds| && ds[i].annotations != map[] }

  predicate IsHint(key: Text) { key == ReadOnlyHint || key == DestructiveHint || key == IdempotentHint || key == OpenWorldHint }

  /** All providers have this annotation with this value. */
  predicate SharedAnnotation(ds: seq<Descriptor>, key: Text, value: Json) {
    forall i :: 0 <= i < |ds| ==> key in ds[i].annotations && ds[i].annotations[key] == value
  }

  lemma HintMeans(m: Fields, key: Text)
    ensures Hint(m, key, false) <==> key in m && m[key] == Bool(true)
    ensures !Hint(m, key, true) <==> key in m && m[key] == Bool(false)
  {
  }

  lemma EverySays(ds: seq<Descriptor>, key: Text)
    ensures Every(Annotations(ds), key, false) <==> AllSay(ds, key, true)
  {
    forall i | 0 <= i < |ds|
      ensures Hint(Annotations(ds)[i], key, false) <==> key in ds[i].annotations && ds[i].annotations[key] == Bool(true)
    {
      HintMeans(ds[i].annotations, key);
    }
  }

  lemma AnySays(ds: seq<Descriptor>, key: Text)
    ensures Any(Annotations(ds), key, true) <==> !AllSay(ds, key, false)
  {
    forall i | 0 <= i < |ds|
      ensures Hint(Annotations(ds)[i], key, true) <==> !(key in ds[i].annotations && ds[i].annotations[key] == Bool(false))
    {
      HintMeans(ds[i].annotations, key);
    }
  }

  lemma NoAnnotationsMeans(ds: seq<Descriptor>)
    ensures NoAnnotations(Annotations(ds)) <==> !SomeAnnotations(ds)
  {
    forall i | 0 <= i < |ds| ensures Annotations(ds)[i] == ds[i].annotations { }
  }

  /** The four hints on top of other annotations. */
  lemma OnTop(common: Fields, r: Json, d: Json, i: Json, o: Json)
    ensures var m := common[ReadOnlyHint := r][DestructiveHint := d][IdempotentHint := i][OpenWorldHint := o];
      ReadOnlyHint in m && DestructiveHint in m && IdempotentHint in m && OpenWorldHint in m &&
      m[ReadOnlyHint] == r && m[DestructiveHint] == d && m[IdempotentHint] == i && m[OpenWorldHint] == o &&
      forall k :: !IsHint(k) ==> (k in m <==> k in common) && (k in m ==> m[k] == common[k])
  {
  }

  /**
   Hints are cautious: read-only and idempotent only when every provider says so, destructive and open-world unless every provider
   denies it. Without any annotation there are no hints; other annotations stay when all providers share them.
   */
  lemma HintsExactly(ds: seq<Descriptor>)
    requires ds != []
    ensures !SomeAnnotations(ds) ==> MergedAnnotations(ds) == map[]
    ensures SomeAnnotations(ds) ==>
      var m := MergedAnnotations(ds);
      ReadOnlyHint in m && DestructiveHint in m && IdempotentHint in m && OpenWorldHint in m &&
      m[ReadOnlyHint] == Bool(AllSay(ds, ReadOnlyHint, true)) && m[IdempotentHint] == Bool(AllSay(ds, IdempotentHint, true)) &&
      m[DestructiveHint] == Bool(!AllSay(ds, DestructiveHint, false)) && m[OpenWorldHint] == Bool(!AllSay(ds, OpenWorldHint, false))
    ensures SomeAnnotations(ds) ==>
      forall k :: !IsHint(k) ==>
        (k in MergedAnnotations(ds) <==> Shared(ds, k)) && (k in MergedAnnotations(ds) ==> MergedAnnotations(ds)[k] == ds[0].annotations[k])
  {
    NoAnnotationsMeans(ds);
    if SomeAnnotations(ds) {
      EverySays(ds, ReadOnlyHint);
      EverySays(ds, IdempotentHint);
      AnySays(ds, DestructiveHint);
      AnySays(ds, OpenWorldHint);
      SharedMeans(ds);
      var ms := Annotations(ds);
      OnTop(CommonFields(ms), Bool(Every(ms, ReadOnlyHint, false)), Bool(Any(ms, DestructiveHint, true)),
            Bool(Every(ms, IdempotentHint, false)), Bool(Any(ms, OpenWorldHint, true)));
    }
  }

  /** All providers have the first one's annotation. */
  predicate Shared(ds: seq<Descriptor>, key: Text)
    requires ds != []
  {
    key in ds[0].annotations && SharedAnnotation(ds, key, ds[0].annotations[key])
  }

  lemma SharedMeans(ds: seq<Descriptor>)
    requires ds != []
    ensures forall k :: k in CommonFields(Annotations(ds)) <==> Shared(ds, k)
    ensures forall k :: k in CommonFields(Annotations(ds)) ==> CommonFields(Annotations(ds))[k] == ds[0].annotations[k]
  {
    var ms := Annotations(ds);
    forall k | k in ds[0].annotations
      ensures (forall i :: 0 <= i < |ms| ==> k in ms[i] && ms[i][k] == ms[0][k]) <==> SharedAnnotation(ds, k, ds[0].annotations[k])
    {
    }
  }

  // ------------------------------------------------------------------ what is listed

  /** A tool is listed when its surfaces are known and the switch is on or the model is among them. */
  lemma ListedExactly(d: Descriptor, apps: bool)
    ensures C.Present(d, apps).Some? <==>
      VisibilityOf(d.meta).Some? && (apps || ModelName in VisibilityOf(d.meta).value)
    ensures C.Present(d, apps).Some? ==>
      var shown := C.Present(d, apps).value;
      shown.descriptor == d && SameBesidesUi(shown.meta, d.meta) && VisibilityOf(shown.meta) == VisibilityOf(d.meta) &&
      (apps ==> shown.meta == d.meta) &&
      (!apps ==> Ui !in shown.meta || shown.meta[Ui] == VisibilityField([ModelName]))
  {
    if VisibilityOf(d.meta).Some? {
      FacesCases(d.meta);
      var faces := VisibilityOf(d.meta).value;
      if !apps && Ui in d.meta && |faces| == 1 && ModelName in faces {
        FacesBack([ModelName]);
        assert d.meta[Ui := VisibilityField(faces)][Ui] == VisibilityField([ModelName]);
        OnlyTheUi(d.meta[Ui := VisibilityField(faces)], map[Ui := VisibilityField([ModelName])]);
      }
    }
  }

  /** Visibility is read from the UI entry alone. */
  lemma OnlyTheUi(m: Fields, n: Fields)
    requires Ui in m && Ui in n && m[Ui] == n[Ui]
    ensures VisibilityOf(m) == VisibilityOf(n)
  {
  }

  // ------------------------------------------------------------------ a snapshot

  /** The i-th descriptor is the last one announced under this trimmed name. */
  predicate LastUnder(ds: seq<Descriptor>, name: string, i: nat)
    requires i < |ds|
  {
    Under(ds[i], name) && forall j :: i < j < |ds| ==> !Under(ds[j], name)
  }

  predicate Under(d: Descriptor, name: string) { Trim(d.name) == name }

  /** Some descriptor is announced under this trimmed name. */
  predicate AnnouncedUnder(ds: seq<Descriptor>, name: string) { exists d :: d in ds && Under(d, name) }

  /** The names a snapshot may hold. */
  predicate Holdable(setup: C.Setup, name: string) { name != "" && !setup.central(name) && Trim(name) != "file_publish" }

  lemma AnnouncedMore(ds: seq<Descriptor>, name: string)
    requires ds != []
    ensures AnnouncedUnder(ds, name) <==> Under(ds[|ds| - 1], name) || AnnouncedUnder(ds[..|ds| - 1], name)
  {
    var n := |ds| - 1;
    assert ds == ds[..n] + [ds[n]];
    forall d ensures d in ds <==> d == ds[n] || d in ds[..n] { }
  }

  lemma SnapshotLast(setup: C.Setup, ds: seq<Descriptor>, last: string)
    requires ds != [] && Under(ds[|ds| - 1], last)
    ensures C.Snapshot(setup, ds) ==
      if Holdable(setup, last) then C.Snapshot(setup, ds[..|ds| - 1])[last := ds[|ds| - 1]] else C.Snapshot(setup, ds[..|ds| - 1])
  {
  }

  lemma {:induction false} SnapshotNames(setup: C.Setup, ds: seq<Descriptor>, name: string)
    ensures name in C.Snapshot(setup, ds) <==> Holdable(setup, name) && AnnouncedUnder(ds, name)
    decreases |ds|
  {
    if ds != [] {
      SnapshotNames(setup, ds[..|ds| - 1], name);
      SnapshotLast(setup, ds, Trim(ds[|ds| - 1].name));
      AnnouncedMore(ds, name);
    }
  }

  /** The snapshot's descriptor of a name whose last announcement is this one. */
  lemma {:induction false} SnapshotValues(setup: C.Setup, ds: seq<Descriptor>, name: string, i: nat)
    requires i < |ds| && LastUnder(ds, name, i) && Holdable(setup, name)
    ensures name in C.Snapshot(setup, ds) && C.Snapshot(setup, ds)[name] == ds[i]
    decreases |ds|
  {
    var n := |ds| - 1;
    SnapshotLast(setup, ds, Trim(ds[n].name));
    if i < n {
      LastBefore(ds, name, i);
      SnapshotValues(setup, ds[..n], name, i);
    }
  }

  lemma LastBefore(ds: seq<Descriptor>, name: string, i: nat)
    requires i < |ds| - 1 && LastUnder(ds, name, i)
    ensures LastUnder(ds[..|ds| - 1], name, i) && ds[..|ds| - 1][i] == ds[i] && Trim(ds[|ds| - 1].name) != name
  {
    assert !Under(ds[|ds| - 1], name);
  }

  /** A snapshot holds exactly the last descriptor of every announced trimmed name that is not blank, central or the file publisher's. */
  lemma SnapshotExactly(setup: C.Setup, ds: seq<Descriptor>, name: string)
    ensures name in C.Snapshot(setup, ds) <==> Holdable(setup, name) && AnnouncedUnder(ds, name)
    ensures forall i :: 0 <= i < |ds| && LastUnder(ds, name, i) && name in C.Snapshot(setup, ds) ==> C.Snapshot(setup, ds)[name] == ds[i]
  {
    SnapshotNames(setup, ds, name);
    forall i | 0 <= i < |ds| && LastUnder(ds, name, i) && name in C.Snapshot(setup, ds) ensures C.Snapshot(setup, ds)[name] == ds[i] {
      SnapshotValues(setup, ds, name, i);
    }
  }

  // ------------------------------------------------------------------ display metadata

  predicate SharedMeta(ds: seq<Descriptor>, key: Text)
    requires ds != []
  {
    key in ds[0].meta && forall i :: 0 <= i < |ds| ==> key in ds[i].meta && ds[i].meta[key] == ds[0].meta[key]
  }

  lemma SharedMetaMeans(ds: seq<Descriptor>)
    requires ds != []
    ensures forall k :: k in CommonFields(Metas(ds)) <==> SharedMeta(ds, k)
    ensures forall k :: k in CommonFields(Metas(ds)) ==> CommonFields(Metas(ds))[k] == ds[0].meta[k]
  {
    var ms := Metas(ds);
    forall k | k in ds[0].meta
      ensures (forall i :: 0 <= i < |ms| ==> k in ms[i] && ms[i][k] == ms[0][k]) <==> SharedMeta(ds, k)
    {
    }
  }

  /** Display metadata stay when all providers share them; a restricted visibility stays in any case. */
  lemma MetaExactly(ds: seq<Descriptor>)
    requires ds != [] && VisibilityOf(ds[0].meta).Some?
    ensures forall k :: k != Ui ==> (k in MergedMeta(ds) <==> SharedMeta(ds, k))
    ensures forall k :: k != Ui && k in MergedMeta(ds) ==> MergedMeta(ds)[k] == ds[0].meta[k]
    ensures AppName in VisibilityOf(ds[0].meta).value && ModelName in VisibilityOf(ds[0].meta).value ==>
      (Ui in MergedMeta(ds) <==> SharedMeta(ds, Ui))
    ensures !(AppName in VisibilityOf(ds[0].meta).value && ModelName in VisibilityOf(ds[0].meta).value) ==>
      Ui in MergedMeta(ds) && MergedMeta(ds)[Ui].Obj?
  {
    FacesCases(ds[0].meta);
    SharedMetaMeans(ds);
  }

  // ------------------------------------------------------------------ offers in node order

  /** These are the ids, each once, in ascending order. */
  predicate Ascending(ids: seq<C.NodeId>) { forall i, j :: 0 <= i < j < |ids| ==> ids[i] < ids[j] }

  lemma InFront(m: C.NodeId, rest: seq<C.NodeId>)
    requires Ascending(rest) && forall id :: id in rest ==> m < id
    ensures Ascending([m] + rest)
  {
    var all := [m] + rest;
    forall i, j | 0 <= i < j < |all| ensures all[i] < all[j] {
      assert all[j] == rest[j - 1] && rest[j - 1] in rest;
      if i > 0 { assert all[i] == rest[i - 1]; }
    }
  }

  predicate Lists(offers: map<C.NodeId, Descriptor>, ids: seq<C.NodeId>, ds: seq<Descriptor>) {
    |ds| == |ids| && forall i :: 0 <= i < |ids| ==> ids[i] in offers && ds[i] == offers[ids[i]]
  }

  lemma InOrderHead(offers: map<C.NodeId, Descriptor>) returns (m: C.NodeId)
    requires offers != map[]
    ensures m in offers && (forall id :: id in offers ==> m <= id) && C.InOrder(offers) == [offers[m]] + C.InOrder(offers - {m})
    ensures |offers - {m}| < |offers|
  {
    m := C.LeastOf(offers.Keys);
    C.Smaller(offers, m);
  }

  lemma ListsMore(offers: map<C.NodeId, Descriptor>, m: C.NodeId, rest: seq<C.NodeId>, ds: seq<Descriptor>)
    requires m in offers && Lists(offers - {m}, rest, ds)
    ensures Lists(offers, [m] + rest, [offers[m]] + ds)
  {
  }

  /** The offers of a name are listed by ascending node id, each once. */
  lemma {:induction false} InOrderExactly(offers: map<C.NodeId, Descriptor>) returns (ids: seq<C.NodeId>)
    ensures Ascending(ids) && (forall id :: id in ids <==> id in offers) && Lists(offers, ids, C.InOrder(offers))
    decreases |offers|
  {
    if offers == map[] {
      ids := [];
    } else {
      var m := InOrderHead(offers);
      var rest := InOrderExactly(offers - {m});
      ids := [m] + rest;
      InFront(m, rest);
      ListsMore(offers, m, rest, C.InOrder(offers - {m}));
    }
  }
}
