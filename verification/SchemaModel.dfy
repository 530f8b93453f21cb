/**
 JSON values, the semantic normal form of a JSON Schema, and the merge of the schemas two nodes publish
 for one tool.

 Sorting compares encoded values; the model sorts by any total order `leq` on values.
 */
module SchemaModel {
  import opened Wrappers

  /** A JSON string.  The strings the code compares with literals have their own constructors. */
  datatype Text =
    | Title | Description | RequiredKey | PropertiesKey
    | PatternProperties | Defs | Definitions | DependentSchemas
    | Items | Contains | Not | If | Then | Else | PropertyNames | AdditionalProperties | UnevaluatedProperties
    | AllOf | AnyOf | OneOf | PrefixItems
    | EnumKey | TypeKey | MinContains | MaxContains | ObjectName
    | Ui | Visibility | ModelName | AppName
    | ReadOnlyHint | DestructiveHint | IdempotentHint | OpenWorldHint
    | Other(name: string)

  datatype Json =
    | Null
    | Bool(value: bool)
    | Num(number: int)
    | Str(text: Text)
    | Arr(items: seq<Json>)
    | Obj(fields: map<Text, Json>)

  type Order = (Json, Json) -> bool

  ghost predicate TotalOrder(leq: Order) {
    && (forall a, b :: leq(a, b) || leq(b, a))
    && (forall a, b :: leq(a, b) && leq(b, a) ==> a == b)
    && (forall a, b, c :: leq(a, b) && leq(b, c) ==> leq(a, c))
  }

  function Insert(leq: Order, x: Json, xs: seq<Json>): (r: seq<Json>)
    ensures multiset(r) == multiset(xs) + multiset{x}
  {
    if xs == [] then [x]
    else if leq(x, xs[0]) then [x] + xs
    else
      assert xs == [xs[0]] + xs[1..];
      [xs[0]] + Insert(leq, x, xs[1..])
  }

  function Sort(leq: Order, xs: seq<Json>): (r: seq<Json>)
    ensures multiset(r) == multiset(xs)
  {
    if xs == [] then []
    else
      assert xs == [xs[0]] + xs[1..];
      Insert(leq, xs[0], Sort(leq, xs[1..]))
  }

  // ------------------------------------------------------------------ the semantic normal form

  datatype Shape = Schemas | OneSchema | SchemaList | Unordered | Plain

  /** How the value of a keyword is read. */
  function ShapeOf(key: Text): Shape {
    match key
    case PropertiesKey => Schemas
    case PatternProperties => Schemas
    case Defs => Schemas
    case Definitions => Schemas
    case DependentSchemas => Schemas
    case Items => OneSchema
    case Contains => OneSchema
    case Not => OneSchema
    case If => OneSchema
    case Then => OneSchema
    case Else => OneSchema
    case PropertyNames => OneSchema
    case AdditionalProperties => OneSchema
    case UnevaluatedProperties => OneSchema
    case AllOf => SchemaList
    case AnyOf => SchemaList
    case OneOf => SchemaList
    case PrefixItems => SchemaList
    case RequiredKey => Unordered
    case EnumKey => Unordered
    case _ => Plain
  }

  /** Display texts go, and an empty `required` says nothing. */
  predicate Dropped(key: Text, value: Json) {
    key.Title? || key.Description? || (key.RequiredKey? && value == Arr([]))
  }

  /** A schema without display texts and with its unordered lists in canonical order; other values stay. */
  function Sem(leq: Order, s: Json): Json
    decreases s, 0
  {
    if s.Obj? then Obj(map k | k in s.fields && !Dropped(k, s.fields[k]) :: SemValue(leq, k, s.fields[k])) else s
  }

  function SemValue(leq: Order, key: Text, v: Json): Json
    decreases v, 1
  {
    match ShapeOf(key)
    case Schemas => if v.Obj? then Obj(map n | n in v.fields :: Sem(leq, v.fields[n])) else v
    case OneSchema => Sem(leq, v)
    case SchemaList =>
      if v.Arr? then Arr(seq(|v.items|, i requires 0 <= i < |v.items| => Sem(leq, v.items[i]))) else v
    case Unordered => if v.Arr? then Arr(Sort(leq, v.items)) else v
    case Plain => v
  }

  // ------------------------------------------------------------------ the merge of two schemas

  predicate AllTexts(items: seq<Json>) {
    forall i :: 0 <= i < |items| ==> items[i].Str?
  }

  function TextsOf(items: seq<Json>): set<Text> {
    set i | 0 <= i < |items| && items[i].Str? :: items[i].text
  }

  /** The names of `required`; None when it is not a list of strings. */
  function RequiredSet(m: map<Text, Json>): Option<set<Text>> {
    if RequiredKey !in m then Some({})
    else if m[RequiredKey].Arr? && AllTexts(m[RequiredKey].items) then Some(TextsOf(m[RequiredKey].items))
    else None
  }

  function Unique(items: seq<Json>): seq<Json> {
    if items == [] then []
    else if items[0] in items[1..] then Unique(items[1..]) else [items[0]] + Unique(items[1..])
  }

  /** What the merged schema says about `required`, given that both sides require the same names. */
  function MergedRequired(leq: Order, a: map<Text, Json>, b: map<Text, Json>, names: set<Text>): Option<Json> {
    if names != {} && RequiredKey in a && a[RequiredKey].Arr? then Some(Arr(Sort(leq, Unique(a[RequiredKey].items))))
    else if RequiredKey in a then Some(a[RequiredKey])
    else if RequiredKey in b then Some(b[RequiredKey])
    else None
  }

  /** `properties` as a map; absent is empty, and anything else but an object is an error. */
  function Props(m: map<Text, Json>): Option<map<Text, Json>> {
    if PropertiesKey !in m then Some(map[])
    else if m[PropertiesKey].Obj? then Some(m[PropertiesKey].fields)
    else None
  }

  predicate Special(key: Text) {
    key.Title? || key.Description? || key.RequiredKey? || key.PropertiesKey?
  }

  /** Every other keyword is on both sides with the same meaning. */
  predicate OthersAgree(leq: Order, a: map<Text, Json>, b: map<Text, Json>) {
    && (forall k :: k in a && !Special(k) ==> k in b && SemValue(leq, k, a[k]) == SemValue(leq, k, b[k]))
    && (forall k :: k in b && !Special(k) ==> k in a)
  }

  /** One property that both sides have. */
  function MergeBoth(leq: Order, name: Text, x: Json, y: Json): Option<Json>
    decreases x, 2
  {
    if x.Obj? && y.Obj? then Merge(leq, x, y)
    else if SemValue(leq, name, x) == SemValue(leq, name, y) then Some(x)
    else None
  }

  /** Every property of either side: merged, kept when it is on one side and not required, or refused. */
  function MergeProps(leq: Order, ghost bound: Json, pa: map<Text, Json>, pb: map<Text, Json>, required: set<Text>)
    : (r: map<Text, Option<Json>>)
    requires forall n :: n in pa ==> pa[n] < bound
    ensures r.Keys == pa.Keys + pb.Keys
    decreases bound, 0
  {
    map n | n in pa.Keys + pb.Keys ::
      if n in pa && n in pb then MergeBoth(leq, n, pa[n], pb[n])
      else if n in required then None
      else Some(if n in pa then pa[n] else pb[n])
  }

  /** The merged schema, or None where the two cannot be merged safely. */
  function Merge(leq: Order, a: Json, b: Json): Option<Json>
    requires a.Obj? && b.Obj?
    decreases a, 1
  {
    var (ra, rb) := (RequiredSet(a.fields), RequiredSet(b.fields));
    var (pa, pb) := (Props(a.fields), Props(b.fields));
    if ra.None? || rb.None? || ra != rb then None
    else if pa.None? || pb.None? || !OthersAgree(leq, a.fields, b.fields) then None
    else
      var children := MergeProps(leq, a, pa.value, pb.value, ra.value);
      if exists n :: n in children && children[n].None? then None
      else
        var required := MergedRequired(leq, a.fields, b.fields, ra.value);
        Some(Obj(map k | k in a.fields.Keys + b.fields.Keys ::
          if k == PropertiesKey then Obj(map n | n in children :: children[n].value)
          else if k == RequiredKey && required.Some? then required.value
          else if k in a.fields then a.fields[k]
          else b.fields[k]))
  }

  /** `nil` schemas are Null: they merge only with each other. */
  function MergeMaps(leq: Order, a: Json, b: Json): Option<Json> {
    if a.Obj? && b.Obj? then Merge(leq, a, b)
    else if a == Null && b == Null then Some(Null)
    else None
  }
}
