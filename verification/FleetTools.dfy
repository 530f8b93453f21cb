/**
 One published tool out of the descriptors several nodes announce: visibility, execution metadata, display
 metadata and annotations, and the two schemas.
 */
module FleetTools {
  import opened Wrappers
  import opened SchemaModel
  import opened SchemaAlgebra
  import opened SchemaOrder
  import opened Folding

  type Fields = map<Text, Json>

  datatype Descriptor = Descriptor(
    name: string, title: string, description: string, input: Json, output: Json, meta: Fields, annotations: Fields)

  /** What depends on other packages: the order of encoded values and the projection of result schemas. */
  datatype Rules = Rules(leq: Order, project: (string, Json) -> Json)

  /** What a contract hash is taken of; the hash is represented by it. */
  datatype Contract = Contract(input: Json, output: Json, meta: Fields)

  datatype Published = Published(descriptor: Descriptor, contract: Contract, accepted: set<Contract>)

  // ------------------------------------------------------------------ visibility

  predicate Faces(items: seq<Json>) {
    items != [] && forall i :: 0 <= i < |items| ==> items[i] == Str(ModelName) || items[i] == Str(AppName)
  }

  /** The surfaces a tool is shown on, in fixed order; None when the declaration cannot be trusted. */
  function VisibilityOf(meta: Fields): Option<seq<Text>> {
    if Ui !in meta then Some([ModelName, AppName])
    else if !meta[Ui].Obj? then None
    else if Visibility !in meta[Ui].fields then Some([ModelName, AppName])
    else
      var v := meta[Ui].fields[Visibility];
      if !v.Arr? || !Faces(v.items) then None
      else Some((if Str(ModelName) in v.items then [ModelName] else []) + (if Str(AppName) in v.items then [AppName] else []))
  }

  function VisibilityField(faces: seq<Text>): Json {
    Obj(map[Visibility := Arr(seq(|faces|, i requires 0 <= i < |faces| => Str(faces[i])))])
  }

  /** The metadata that decides who may call a tool. */
  function ExecutionMeta(meta: Fields): Option<Fields> {
    match VisibilityOf(meta)
    case None => None
    case Some(faces) => Some((meta - {Ui})[Ui := VisibilityField(faces)])
  }

  function ContractOf(leq: Order, d: Descriptor): Option<Contract> {
    match ExecutionMeta(d.meta)
    case None => None
    case Some(meta) => Some(Contract(Sem(leq, d.input), Sem(leq, d.output), meta))
  }

  // ------------------------------------------------------------------ merging descriptors

  function Inputs(ds: seq<Descriptor>): (xs: seq<Json>)
    ensures |xs| == |ds| && forall i :: 0 <= i < |xs| ==> xs[i] == ds[i].input
  {
    seq(|ds|, i requires 0 <= i < |ds| => ds[i].input)
  }

  function Outputs(rules: Rules, ds: seq<Descriptor>): (xs: seq<Json>)
    ensures |xs| == |ds| && forall i :: 0 <= i < |xs| ==> xs[i] == rules.project(ds[i].name, ds[i].output)
  {
    seq(|ds|, i requires 0 <= i < |ds| => rules.project(ds[i].name, ds[i].output))
  }

  /** Same name, and the same trusted execution metadata, hence the same visibility. */
  predicate Compatible(ds: seq<Descriptor>)
    requires ds != []
  {
    forall i :: 0 <= i < |ds| ==>
      ds[i].name == ds[0].name && ExecutionMeta(ds[i].meta).Some? &&
      VisibilityOf(ds[i].meta) == VisibilityOf(ds[0].meta) && ExecutionMeta(ds[i].meta) == ExecutionMeta(ds[0].meta)
  }

  /** The entries on which all providers agree. */
  function CommonFields(ms: seq<Fields>): Fields
    requires ms != []
  {
    map k | k in ms[0] && forall i :: 0 <= i < |ms| ==> k in ms[i] && ms[i][k] == ms[0][k] :: ms[0][k]
  }

  function Metas(ds: seq<Descriptor>): (ms: seq<Fields>)
    ensures |ms| == |ds| && forall i :: 0 <= i < |ms| ==> ms[i] == ds[i].meta
  {
    seq(|ds|, i requires 0 <= i < |ds| => ds[i].meta)
  }

  function Annotations(ds: seq<Descriptor>): (ms: seq<Fields>)
    ensures |ms| == |ds| && forall i :: 0 <= i < |ms| ==> ms[i] == ds[i].annotations
  {
    seq(|ds|, i requires 0 <= i < |ds| => ds[i].annotations)
  }

  /** A restricted visibility survives even when the rest of the display metadata does not. */
  function MergedMeta(ds: seq<Descriptor>): Fields
    requires ds != []
  {
    var common := CommonFields(Metas(ds));
    match VisibilityOf(ds[0].meta)
    case Some(faces) =>
      if |faces| == 2 then common
      else
        var ui := if Ui in common && common[Ui].Obj? then common[Ui].fields else map[];
        common[Ui := Obj(ui[Visibility := VisibilityField(faces).fields[Visibility]])]
    case None => common
  }

  function Hint(annotations: Fields, key: Text, default: bool): bool {
    if key in annotations && annotations[key].Bool? then annotations[key].value else default
  }

  predicate Every(ms: seq<Fields>, key: Text, default: bool) {
    forall i :: 0 <= i < |ms| ==> Hint(ms[i], key, default)
  }

  predicate Any(ms: seq<Fields>, key: Text, default: bool) {
    exists i :: 0 <= i < |ms| && Hint(ms[i], key, default)
  }

  predicate NoAnnotations(ms: seq<Fields>) {
    forall i :: 0 <= i < |ms| ==> ms[i] == map[]
  }

  /** A safety hint is given only when every provider gives it; defaults are the cautious ones. */
  function MergedAnnotations(ds: seq<Descriptor>): Fields
    requires ds != []
  {
    var ms := Annotations(ds);
    if NoAnnotations(ms) then map[]
    else CommonFields(ms)
      [ReadOnlyHint := Bool(Every(ms, ReadOnlyHint, false))]
      [DestructiveHint := Bool(Any(ms, DestructiveHint, true))]
      [IdempotentHint := Bool(Every(ms, IdempotentHint, false))]
      [OpenWorldHint := Bool(Any(ms, OpenWorldHint, true))]
  }

  function AcceptedContracts(leq: Order, ds: seq<Descriptor>): set<Contract> {
    set i | 0 <= i < |ds| && ContractOf(leq, ds[i]).Some? :: ContractOf(leq, ds[i]).value
  }

  /** The tool as published for all its providers, or None when it must be withdrawn. */
  function MergeDescriptors(rules: Rules, ds: seq<Descriptor>): Option<Published> {
    if ds == [] || !Compatible(ds) then None
    else
      var (input, output) := (MergeList(rules.leq, Inputs(ds)), MergeList(rules.leq, Outputs(rules, ds)));
      if input.None? || output.None? then None
      else
        var d := ds[0].(input := input.value, output := output.value, meta := MergedMeta(ds), annotations := MergedAnnotations(ds));
        match ContractOf(rules.leq, d)
        case None => None
        case Some(contract) => Some(Published(d, contract, AcceptedContracts(rules.leq, ds)))
  }

  // ------------------------------------------------------------------ visibility is kept

  lemma FacesBack(faces: seq<Text>)
    requires faces == [ModelName] || faces == [AppName]
    ensures VisibilityOf(map[Ui := VisibilityField(faces)]) == Some(faces)
  {
    var items := VisibilityField(faces).fields[Visibility].items;
    assert items == [Str(faces[0])];
    assert items[0] in items;
    if faces == [ModelName] {
      assert Str(AppName) !in items;
      assert [ModelName] + [] == faces;
    } else {
      assert Str(ModelName) !in items;
      assert [] + [AppName] == faces;
    }
  }

  lemma FacesCases(meta: Fields)
    requires VisibilityOf(meta).Some?
    ensures var faces := VisibilityOf(meta).value; faces == [ModelName] || faces == [AppName] || faces == [ModelName, AppName]
  {
    if Ui in meta && meta[Ui].Obj? && Visibility in meta[Ui].fields {
      var items := meta[Ui].fields[Visibility].items;
      assert items[0] in items;
    }
  }

  /** Main result on visibility: the published tool is shown on exactly the surfaces every provider declares. */
  lemma VisibilityKept(ds: seq<Descriptor>, i: nat)
    requires ds != [] && Compatible(ds) && i < |ds|
    ensures VisibilityOf(MergedMeta(ds)) == VisibilityOf(ds[i].meta)
  {
    var common := CommonFields(Metas(ds));
    assert VisibilityOf(ds[0].meta).Some?;
    FacesCases(ds[0].meta);
    var faces := VisibilityOf(ds[0].meta).value;
    if |faces| == 2 {
      if Ui in common { assert common[Ui] == ds[0].meta[Ui]; }
    } else {
      FacesBack(faces);
      var merged := MergedMeta(ds);
      assert merged[Ui].fields[Visibility] == VisibilityField(faces).fields[Visibility];
    }
  }

  /** A tool is withdrawn only when names, execution metadata or schemas disagree. */
  lemma PublishedExactlyWhen(rules: Rules, ds: seq<Descriptor>)
    ensures MergeDescriptors(rules, ds).Some? <==>
      ds != [] && Compatible(ds) && MergeList(rules.leq, Inputs(ds)).Some? && MergeList(rules.leq, Outputs(rules, ds)).Some?
  {
    if ds != [] && Compatible(ds) { VisibilityKept(ds, 0); }
  }

  // ------------------------------------------------------------------ order of the providers

  ghost predicate AllSchemasPublishable(rules: Rules, ds: seq<Descriptor>) {
    AllPublishable(Inputs(ds)) && AllPublishable(Outputs(rules, ds))
  }

  lemma CompatibleAnyOrder(ds: seq<Descriptor>, es: seq<Descriptor>)
    requires ds != [] && es != [] && multiset(ds) == multiset(es) && Compatible(ds)
    ensures Compatible(es)
    ensures VisibilityOf(es[0].meta) == VisibilityOf(ds[0].meta)
  {
    SameMembers(ds, es);
    forall i | 0 <= i < |es|
      ensures es[i].name == ds[0].name && ExecutionMeta(es[i].meta).Some?
      ensures VisibilityOf(es[i].meta) == VisibilityOf(ds[0].meta) && ExecutionMeta(es[i].meta) == ExecutionMeta(ds[0].meta)
    {
      assert es[i] in ds;
    }
  }

  lemma CommonAnyOrder(xs: seq<Fields>, ys: seq<Fields>)
    requires xs != [] && ys != [] && multiset(xs) == multiset(ys)
    ensures CommonFields(xs) == CommonFields(ys)
  {
    SameMembers(xs, ys);
    CommonMembers(xs);
    CommonMembers(ys);
    assert xs[0] in ys && ys[0] in xs;
    assert CommonFields(xs).Keys == CommonFields(ys).Keys;
  }

  lemma CommonMembers(xs: seq<Fields>)
    requires xs != []
    ensures forall k :: k in CommonFields(xs) <==> k in xs[0] && forall x :: x in xs ==> k in x && x[k] == xs[0][k]
  {
    forall k | k in xs[0] && forall i :: 0 <= i < |xs| ==> k in xs[i] && xs[i][k] == xs[0][k]
      ensures forall x :: x in xs ==> k in x && x[k] == xs[0][k]
    {
    }
    forall k | k in xs[0] && forall x :: x in xs ==> k in x && x[k] == xs[0][k]
      ensures k in CommonFields(xs)
    {
      forall i | 0 <= i < |xs| ensures k in xs[i] && xs[i][k] == xs[0][k] { assert xs[i] in xs; }
    }
  }

  /** Main result: whether a tool is published, and the normal forms of its schemas, do not depend on the order of the providers. */
  lemma PublicationIgnoresOrder(rules: Rules, ds: seq<Descriptor>, es: seq<Descriptor>)
    requires TotalOrder(rules.leq) && multiset(ds) == multiset(es) && AllSchemasPublishable(rules, ds)
    ensures MergeDescriptors(rules, ds).Some? <==> MergeDescriptors(rules, es).Some?
    ensures MergeDescriptors(rules, ds).Some? ==>
      var (p, q) := (MergeDescriptors(rules, ds).value, MergeDescriptors(rules, es).value);
      Sem(rules.leq, p.descriptor.input) == Sem(rules.leq, q.descriptor.input) &&
      Sem(rules.leq, p.descriptor.output) == Sem(rules.leq, q.descriptor.output) &&
      p.descriptor.name == q.descriptor.name && VisibilityOf(p.descriptor.meta) == VisibilityOf(q.descriptor.meta)
  {
    SameMembers(ds, es);
    if ds != [] {
      PublishedExactlyWhen(rules, ds);
      PublishedExactlyWhen(rules, es);
      SchemasAnyOrder(rules, ds, es);
      if Compatible(ds) { CompatibleAnyOrder(ds, es); }
      if Compatible(es) { CompatibleAnyOrder(es, ds); }
      if MergeDescriptors(rules, ds).Some? {
        VisibilityKept(ds, 0);
        VisibilityKept(es, 0);
        assert es[0] in ds;
      }
    }
  }

  lemma SchemasAnyOrder(rules: Rules, ds: seq<Descriptor>, es: seq<Descriptor>)
    requires TotalOrder(rules.leq) && ds != [] && multiset(ds) == multiset(es) && AllSchemasPublishable(rules, ds)
    ensures es != []
    ensures Same(rules.leq, MergeList(rules.leq, Inputs(ds)), MergeList(rules.leq, Inputs(es)))
    ensures Same(rules.leq, MergeList(rules.leq, Outputs(rules, ds)), MergeList(rules.leq, Outputs(rules, es)))
  {
    SameMembers(ds, es);
    var f := (d: Descriptor) => d.input;
    var g := (d: Descriptor) => rules.project(d.name, d.output);
    MapBag(ds, es, f);
    MapBag(ds, es, g);
    assert Map(ds, f) == Inputs(ds) && Map(es, f) == Inputs(es);
    assert Map(ds, g) == Outputs(rules, ds) && Map(es, g) == Outputs(rules, es);
    forall i | 0 <= i < |es| ensures Publishable(Inputs(es)[i]) && Publishable(Outputs(rules, es)[i]) {
      assert es[i] in ds;
      var j :| 0 <= j < |ds| && ds[j] == es[i];
      assert Publishable(Inputs(ds)[j]) && Publishable(Outputs(rules, ds)[j]);
    }
    MergeIgnoresOrder(rules.leq, Inputs(ds), Inputs(es));
    MergeIgnoresOrder(rules.leq, Outputs(rules, ds), Outputs(rules, es));
  }

  lemma MetasBag(ds: seq<Descriptor>, es: seq<Descriptor>)
    requires multiset(ds) == multiset(es)
    ensures multiset(Metas(ds)) == multiset(Metas(es))
  {
    var f := (d: Descriptor) => d.meta;
    MapBag(ds, es, f);
    assert Map(ds, f) == Metas(ds) && Map(es, f) == Metas(es);
  }

  lemma AnnotationsBag(ds: seq<Descriptor>, es: seq<Descriptor>)
    requires multiset(ds) == multiset(es)
    ensures multiset(Annotations(ds)) == multiset(Annotations(es))
  {
    var f := (d: Descriptor) => d.annotations;
    MapBag(ds, es, f);
    assert Map(ds, f) == Annotations(ds) && Map(es, f) == Annotations(es);
  }

  /** Display metadata and annotations do not depend on the order either. */
  lemma DisplayIgnoresOrder(ds: seq<Descriptor>, es: seq<Descriptor>)
    requires ds != [] && multiset(ds) == multiset(es) && Compatible(ds)
    ensures es != [] && MergedMeta(ds) == MergedMeta(es) && MergedAnnotations(ds) == MergedAnnotations(es)
  {
    assert |ds| == |multiset(ds)| == |multiset(es)| == |es|;
    CompatibleAnyOrder(ds, es);
    MetasBag(ds, es);
    AnnotationsBag(ds, es);
    CommonAnyOrder(Metas(ds), Metas(es));
    CommonAnyOrder(Annotations(ds), Annotations(es));
    HintsAnyOrder(Annotations(ds), Annotations(es));
  }

  lemma HintAnyOrder(ms: seq<Fields>, ns: seq<Fields>, key: Text, default: bool)
    requires multiset(ms) == multiset(ns)
    ensures Every(ms, key, default) <==> Every(ns, key, default)
    ensures Any(ms, key, default) <==> Any(ns, key, default)
  {
    SameMembers(ms, ns);
    forall i | 0 <= i < |ms| ensures ms[i] in ns { }
    forall i | 0 <= i < |ns| ensures ns[i] in ms { }
  }

  lemma HintsAnyOrder(ms: seq<Fields>, ns: seq<Fields>)
    requires multiset(ms) == multiset(ns)
    ensures NoAnnotations(ms) <==> NoAnnotations(ns)
    ensures Every(ms, ReadOnlyHint, false) <==> Every(ns, ReadOnlyHint, false)
    ensures Any(ms, DestructiveHint, true) <==> Any(ns, DestructiveHint, true)
    ensures Every(ms, IdempotentHint, false) <==> Every(ns, IdempotentHint, false)
    ensures Any(ms, OpenWorldHint, true) <==> Any(ns, OpenWorldHint, true)
  {
    SameMembers(ms, ns);
    forall i | 0 <= i < |ms| ensures ms[i] in ns { }
    forall i | 0 <= i < |ns| ensures ns[i] in ms { }
    HintAnyOrder(ms, ns, ReadOnlyHint, false);
    HintAnyOrder(ms, ns, DestructiveHint, true);
    HintAnyOrder(ms, ns, IdempotentHint, false);
    HintAnyOrder(ms, ns, OpenWorldHint, true);
  }
}
