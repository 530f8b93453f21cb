/**
 The live tool catalogue: which node offers which descriptor, which merged tools are published, and which of
 them the MCP server has registered. Nodes connect, update and leave while reconciliation runs one name at a time;
 the catalogue must agree with merging the live descriptors from scratch.
 */
module Catalogue {
  import opened Wrappers
  import opened SchemaModel
  import opened FleetTools
  import Folding
  import opened Names

  predicate Unavailable(name: string) { Trim(name) == "file_publish" }

  // ------------------------------------------------------------------ state

  /** Node ids in the order in which they sort; 0 is the blank id. */
  type NodeId = nat

  type Snapshots = map<NodeId, map<string, Descriptor>>

  /** A registered tool: the published descriptor with the metadata that is shown. */
  datatype Shown = Shown(descriptor: Descriptor, meta: Fields)

  /** merge: how the descriptors of a tool's providers become one. central: the names owned by the server itself. */
  datatype Rulebook = Rulebook(merge: seq<Descriptor> -> Option<Published>, central: string -> bool)

  /** Nothing comes of no descriptors, and a merged tool keeps the name of the first. */
  ghost predicate KeepsNames(r: Rulebook) {
    r.merge([]).None? &&
    forall ds: seq<Descriptor> :: ds != [] && r.merge(ds).Some? ==> r.merge(ds).value.descriptor.name == ds[0].name
  }

  type Setup = r: Rulebook | KeepsNames(r) ghost witness Rulebook(ds => None, name => false)

  /** The catalogue of a fleet merges descriptors as FleetTools does. */
  function Fleet(rules: Rules, central: string -> bool): Setup {
    Rulebook((ds: seq<Descriptor>) => MergeDescriptors(rules, ds), central)
  }

  datatype Capture = Capture(name: string, offers: seq<Descriptor>)

  /**
   due: names whose snapshots changed and which some caller will still reconcile. busy: the reconciliation that holds
   the reconcile lock and has read the live descriptors. rebuilds: switch changes whose re-registration is still to come.
   */
  datatype Catalog = Catalog(
    nodes: Snapshots, tools: map<string, Published>, registered: map<string, Shown>, apps: bool,
    due: set<string>, busy: Option<Capture>, rebuilds: seq<bool>)

  const Empty := Catalog(map[], map[], map[], true, {}, None, [])

  // ------------------------------------------------------------------ live descriptors in node order

  predicate Least(m: NodeId, ids: set<NodeId>) { m in ids && AtMost(m, ids) }

  predicate AtMost(m: NodeId, ids: set<NodeId>) {
    forall x :: x in ids ==> m <= x
  }

  lemma {:induction false} LeastExists(ids: set<NodeId>)
    requires ids != {}
    ensures exists m :: Least(m, ids)
    decreases |ids|
  {
    var x :| x in ids;
    if ids == {x} {
      assert Least(x, ids);
    } else {
      var rest := ids - {x};
      assert rest != {} by { assert forall y :: y in ids && y != x ==> y in rest; }
      LeastExists(rest);
      var m :| Least(m, rest);
      assert forall y :: y in ids ==> y == x || y in rest;
      assert Least(if x < m then x else m, ids);
    }
  }

  ghost function LeastOf(ids: set<NodeId>): (m: NodeId)
    requires ids != {}
    ensures Least(m, ids)
  {
    LeastExists(ids);
    var m :| Least(m, ids); m
  }

  /** Who offers a name. */
  function Offers(nodes: Snapshots, name: string): map<NodeId, Descriptor> {
    map id | id in nodes && name in nodes[id] :: nodes[id][name]
  }

  ghost function InOrder(offers: map<NodeId, Descriptor>): (ds: seq<Descriptor>)
    ensures ds == [] <==> offers == map[]
    decreases |offers|
  {
    if offers == map[] then []
    else
      var m := LeastOf(offers.Keys);
      Smaller(offers, m);
      [offers[m]] + InOrder(offers - {m})
  }

  lemma Smaller<K, V>(m: map<K, V>, k: K)
    requires k in m
    ensures |m - {k}| < |m|
  {
    assert (m - {k}).Keys == m.Keys - {k};
    assert |(m - {k}).Keys| < |m.Keys|;
  }

  /** The catalogue entry recomputed from scratch. */
  ghost function Wanted(setup: Setup, nodes: Snapshots, name: string): Option<Published> {
    Merged(setup, name, InOrder(Offers(nodes, name)))
  }

  function Merged(setup: Setup, name: string, offers: seq<Descriptor>): Option<Published> {
    if Unavailable(name) then None else setup.merge(offers)
  }

  function Get<V>(m: map<string, V>, name: string): Option<V> {
    if name in m then Some(m[name]) else None
  }

  // ------------------------------------------------------------------ what is registered

  predicate ForModel(faces: seq<Text>) { ModelName in faces }

  /** The tool as the server lists it, or None when it must not be listed under this switch. */
  function Present(d: Descriptor, apps: bool): Option<Shown> {
    match VisibilityOf(d.meta)
    case None => None
    case Some(faces) =>
      if !apps && !ForModel(faces) then None
      else Some(Shown(d, if apps || Ui !in d.meta then d.meta
                         else if |faces| == 2 then d.meta - {Ui}
                         else d.meta[Ui := VisibilityField(faces)]))
  }

  /** AddTool and RemoveTools use the descriptor's own name. */
  function Register(registered: map<string, Shown>, d: Descriptor, apps: bool): map<string, Shown> {
    match Present(d, apps)
    case Some(tool) => registered[d.name := tool]
    case None => registered - {d.name}
  }

  /** What ought to be registered: every published tool that is visible under the switch. */
  function Visible(tools: map<string, Published>, apps: bool): map<string, Shown> {
    map x | x in tools && Present(tools[x].descriptor, apps).Some? :: Present(tools[x].descriptor, apps).value
  }

  // ------------------------------------------------------------------ steps

  predicate Keyable(setup: Setup, name: string) { name != "" && !setup.central(name) }

  /** A Hello snapshot keyed by trimmed name; a later descriptor of the same name wins. */
  function Snapshot(setup: Setup, ds: seq<Descriptor>): map<string, Descriptor> {
    if ds == [] then map[]
    else
      var d := ds[|ds| - 1];
      var rest := Snapshot(setup, ds[..|ds| - 1]);
      var name := Trim(d.name);
      if !Keyable(setup, name) || Unavailable(name) then rest else rest[name := d]
  }

  function Replace(setup: Setup, c: Catalog, id: NodeId, ds: seq<Descriptor>): Catalog {
    if id == 0 then c
    else
      var next := Snapshot(setup, ds);
      var previous := if id in c.nodes then c.nodes[id] else map[];
      c.(nodes := c.nodes[id := next], due := c.due + previous.Keys + next.Keys)
  }

  function Withdraw(c: Catalog, id: NodeId): Catalog {
    var previous := if id in c.nodes then c.nodes[id] else map[];
    c.(nodes := c.nodes - {id}, due := c.due + previous.Keys)
  }

  /** Takes the reconcile lock and reads the live descriptors. */
  ghost function Begin(setup: Setup, c: Catalog, given: string): Catalog {
    var name := Trim(given);
    if c.busy.Some? || !Keyable(setup, name) then c
    else c.(busy := Some(Capture(name, InOrder(Offers(c.nodes, name)))), due := c.due - {name})
  }

  function Apply(setup: Setup, c: Catalog, name: string, offers: seq<Descriptor>): Catalog {
    match Merged(setup, name, offers)
    case None => c.(tools := c.tools - {name}, registered := c.registered - {name})
    case Some(p) =>
      var changed := name !in c.tools || c.tools[name].descriptor != p.descriptor;
      c.(tools := c.tools[name := p],
         registered := if changed then Register(c.registered, p.descriptor, c.apps) else c.registered)
  }

  /** Publishes or retires what was read, and releases the lock. */
  function Finish(setup: Setup, c: Catalog): Catalog {
    match c.busy
    case None => c
    case Some(capture) => Apply(setup, c, capture.name, capture.offers).(busy := None)
  }

  /** Sets the switch; the caller that changed it re-registers later. */
  function Flip(c: Catalog, apps: bool): Catalog {
    if c.apps == apps then c else c.(apps := apps, rebuilds := c.rebuilds + [apps])
  }

  ghost function RegisterAll(tools: map<string, Published>, names: set<string>, registered: map<string, Shown>, apps: bool)
    : map<string, Shown>
    requires names <= tools.Keys
    decreases |names|
  {
    if names == {} then registered
    else
      var x :| x in names;
      RegisterAll(tools, names - {x}, Register(registered, tools[x].descriptor, apps), apps)
  }

  /** One outstanding change re-registers every published tool, with the switch value it was called with. */
  ghost function Rebuild(c: Catalog, i: nat): Catalog {
    if i >= |c.rebuilds| || c.busy.Some? then c
    else c.(registered := RegisterAll(c.tools, c.tools.Keys, c.registered, c.rebuilds[i]), rebuilds := Folding.Remove(c.rebuilds, i))
  }

  datatype Step =
    | Hello(id: NodeId, ds: seq<Descriptor>)
    | Leave(id: NodeId)
    | BeginOne(name: string)
    | FinishOne
    | Switch(apps: bool)
    | RebuildAll(i: nat)

  ghost function Next(setup: Setup, c: Catalog, step: Step): Catalog {
    match step
    case Hello(id, ds) => Replace(setup, c, id, ds)
    case Leave(id) => Withdraw(c, id)
    case BeginOne(name) => Begin(setup, c, name)
    case FinishOne => Finish(setup, c)
    case Switch(apps) => Flip(c, apps)
    case RebuildAll(i) => Rebuild(c, i)
  }

  ghost function Run(setup: Setup, c: Catalog, steps: seq<Step>): Catalog
    decreases |steps|
  {
    if steps == [] then c else Next(setup, Run(setup, c, steps[..|steps| - 1]), steps[|steps| - 1])
  }

  // ------------------------------------------------------------------ the catalogue agrees with recomputation

  predicate Pending(c: Catalog, name: string) {
    name in c.due || (c.busy.Some? && c.busy.value.name == name)
  }

  /** Snapshots are keyed by names that can be reconciled at all. */
  predicate WellKeyed(setup: Setup, nodes: Snapshots) {
    forall id :: id in nodes ==> KeyedByName(setup, nodes[id])
  }

  predicate KeyedByName(setup: Setup, offered: map<string, Descriptor>) {
    forall x :: x in offered ==> Keyable(setup, x) && Trimmed(x) && Trim(offered[x].name) == x
  }

  ghost predicate Agrees(setup: Setup, c: Catalog) {
    WellKeyed(setup, c.nodes) &&
    (forall x :: !Pending(c, x) ==> Get(c.tools, x) == Wanted(setup, c.nodes, x)) &&
    (c.busy.Some? ==>
      Keyable(setup, c.busy.value.name) && Trimmed(c.busy.value.name) &&
      (c.busy.value.name !in c.due ==> c.busy.value.offers == InOrder(Offers(c.nodes, c.busy.value.name))))
  }

  lemma {:induction false} SnapshotKeys(setup: Setup, ds: seq<Descriptor>)
    ensures KeyedByName(setup, Snapshot(setup, ds))
    ensures forall x :: x in Snapshot(setup, ds) ==> Snapshot(setup, ds)[x] in ds
    decreases |ds|
  {
    if ds != [] { SnapshotKeys(setup, ds[..|ds| - 1]); }
  }

  /** A name that is not touched by a snapshot is offered by the same nodes as before. */
  lemma SnapshotFrame(setup: Setup, c: Catalog, d: Catalog)
    requires Agrees(setup, c) && WellKeyed(setup, d.nodes) && c.due <= d.due
    requires d.tools == c.tools && d.busy == c.busy
    requires forall x :: x !in d.due ==> Offers(d.nodes, x) == Offers(c.nodes, x)
    ensures Agrees(setup, d)
  {
    forall x | !Pending(d, x) ensures Get(d.tools, x) == Wanted(setup, d.nodes, x) {
      assert !Pending(c, x);
      assert Offers(d.nodes, x) == Offers(c.nodes, x);
    }
  }

  lemma OffersAfter(nodes: Snapshots, id: NodeId, next: map<string, Descriptor>, x: string)
    requires x !in next && (id in nodes ==> x !in nodes[id])
    ensures Offers(nodes[id := next], x) == Offers(nodes, x)
  {
  }

  lemma KeyedAfter(setup: Setup, nodes: Snapshots, id: NodeId, next: map<string, Descriptor>)
    requires WellKeyed(setup, nodes) && KeyedByName(setup, next)
    ensures WellKeyed(setup, nodes[id := next])
  {
  }

  lemma ReplaceKeeps(setup: Setup, c: Catalog, id: NodeId, ds: seq<Descriptor>)
    requires Agrees(setup, c)
    ensures Agrees(setup, Replace(setup, c, id, ds))
  {
    if id != 0 {
      SnapshotKeys(setup, ds);
      var d := Replace(setup, c, id, ds);
      var next := Snapshot(setup, ds);
      forall x | x !in d.due ensures Offers(d.nodes, x) == Offers(c.nodes, x) { OffersAfter(c.nodes, id, next, x); }
      KeyedAfter(setup, c.nodes, id, next);
      SnapshotFrame(setup, c, d);
    }
  }

  lemma WithdrawKeeps(setup: Setup, c: Catalog, id: NodeId)
    requires Agrees(setup, c)
    ensures Agrees(setup, Withdraw(c, id))
  {
    var d := Withdraw(c, id);
    forall x | x !in d.due ensures Offers(d.nodes, x) == Offers(c.nodes, x) { }
    SnapshotFrame(setup, c, d);
  }

  lemma FinishKeeps(setup: Setup, c: Catalog)
    requires Agrees(setup, c)
    ensures Agrees(setup, Finish(setup, c))
  {
    if c.busy.Some? {
      var (name, d) := (c.busy.value.name, Finish(setup, c));
      assert Get(d.tools, name) == Merged(setup, name, c.busy.value.offers);
      forall x | !Pending(d, x) ensures Get(d.tools, x) == Wanted(setup, d.nodes, x) {
        if x != name { assert Get(d.tools, x) == Get(c.tools, x); }
      }
    }
  }

  lemma NextKeeps(setup: Setup, c: Catalog, step: Step)
    requires Agrees(setup, c)
    ensures Agrees(setup, Next(setup, c, step))
  {
    match step
    case Hello(id, ds) => ReplaceKeeps(setup, c, id, ds);
    case Leave(id) => WithdrawKeeps(setup, c, id);
    case FinishOne => FinishKeeps(setup, c);
    case BeginOne(name) =>
    case Switch(_) =>
    case RebuildAll(_) =>
  }

  lemma {:induction false} RunKeeps(setup: Setup, steps: seq<Step>)
    ensures Agrees(setup, Run(setup, Empty, steps))
    decreases |steps|
  {
    if steps == [] {
      forall x ensures Get(Empty.tools, x) == Wanted(setup, Empty.nodes, x) {
        assert Offers(Empty.nodes, x) == map[];
      }
    } else {
      RunKeeps(setup, steps[..|steps| - 1]);
      NextKeeps(setup, Run(setup, Empty, steps[..|steps| - 1]), steps[|steps| - 1]);
    }
  }

  predicate Settled(c: Catalog) { c.due == {} && c.busy.None? }

  /**
   Main result: after every interleaving of snapshots, disconnects, reconciliations and switch changes, each name that
   nobody still has to reconcile is published exactly when merging the live descriptors in node order succeeds, and with
   that result.
   */
  lemma CatalogueAgrees(setup: Setup, steps: seq<Step>, name: string)
    ensures var c := Run(setup, Empty, steps);
      !Pending(c, name) ==> Get(c.tools, name) == Wanted(setup, c.nodes, name)
  {
    RunKeeps(setup, steps);
  }

  // ------------------------------------------------------------------ the server agrees with the catalogue

  /** The announced names carry no white space around them. */
  predicate Tidy(steps: seq<Step>) {
    forall i :: 0 <= i < |steps| && steps[i].Hello? ==> TidyNames(steps[i].ds)
  }

  predicate TidyNames(ds: seq<Descriptor>) { forall j :: 0 <= j < |ds| ==> Trimmed(ds[j].name) }

  predicate OwnName(x: string, d: Descriptor) { d.name == x }

  predicate OwnOffers(offered: map<string, Descriptor>) {
    forall x :: x in offered ==> OwnName(x, offered[x])
  }

  predicate OwnTools(tools: map<string, Published>) {
    forall x :: x in tools ==> OwnName(x, tools[x].descriptor)
  }

  predicate AllNamed(name: string, ds: seq<Descriptor>) {
    forall i :: 0 <= i < |ds| ==> OwnName(name, ds[i])
  }

  predicate OwnNames(c: Catalog) {
    (forall id :: id in c.nodes ==> OwnOffers(c.nodes[id])) && OwnTools(c.tools) &&
    (c.busy.Some? ==> AllNamed(c.busy.value.name, c.busy.value.offers))
  }

  /** Every registered name is the name of a published tool. */
  predicate Owned(c: Catalog) { OwnNames(c) && c.registered.Keys <= c.tools.Keys }

  /** The server shows the visible published tools, unless the one change of the switch is still re-registering. */
  predicate ServerAgrees(c: Catalog) {
    Owned(c) && (c.rebuilds == [c.apps] || (c.rebuilds == [] && c.registered == Visible(c.tools, c.apps)))
  }

  /** Each change of the switch starts after the previous one has re-registered. */
  ghost predicate Apart(setup: Setup, steps: seq<Step>) {
    forall i :: 0 <= i < |steps| && steps[i].Switch? ==> Run(setup, Empty, steps[..i]).rebuilds == []
  }

  lemma {:induction false} InOrderHolds(offers: map<NodeId, Descriptor>, x: string)
    requires forall id :: id in offers ==> OwnName(x, offers[id])
    ensures AllNamed(x, InOrder(offers))
    decreases |offers|
  {
    if offers != map[] {
      var m := LeastOf(offers.Keys);
      Smaller(offers, m);
      InOrderHolds(offers - {m}, x);
    }
  }

  lemma MergedName(setup: Setup, name: string, offers: seq<Descriptor>)
    requires Merged(setup, name, offers).Some? && AllNamed(name, offers)
    ensures OwnName(name, Merged(setup, name, offers).value.descriptor)
  {
  }

  /** Registering one tool settles that tool and leaves the others alone. */
  lemma RegisterOne(registered: map<string, Shown>, name: string, d: Descriptor, apps: bool, x: string)
    requires OwnName(name, d)
    ensures Get(Register(registered, d, apps), x) == if x == name then Present(d, apps) else Get(registered, x)
  {
  }

  lemma SameEntries<V>(m: map<string, V>, n: map<string, V>)
    requires forall x :: Get(m, x) == Get(n, x)
    ensures m == n
  {
    forall x ensures x in m <==> x in n { assert Get(m, x) == Get(n, x); }
    forall x | x in m ensures m[x] == n[x] { assert Get(m, x) == Get(n, x); }
  }

  function Due(tools: map<string, Published>, apps: bool, x: string): Option<Shown> {
    if x in tools then Present(tools[x].descriptor, apps) else None
  }

  lemma VisibleAt(tools: map<string, Published>, apps: bool, x: string)
    ensures Get(Visible(tools, apps), x) == Due(tools, apps, x)
  {
  }

  lemma ApplyServes(setup: Setup, c: Catalog, name: string, offers: seq<Descriptor>)
    requires Owned(c) && AllNamed(name, offers)
    ensures var d := Apply(setup, c, name, offers);
      Owned(d) && (c.registered == Visible(c.tools, c.apps) ==> d.registered == Visible(d.tools, d.apps))
  {
    var d := Apply(setup, c, name, offers);
    var m := Merged(setup, name, offers);
    if m.Some? { MergedName(setup, name, offers); }
    assert OwnTools(d.tools);
    if c.registered == Visible(c.tools, c.apps) {
      forall x ensures Get(d.registered, x) == Get(Visible(d.tools, d.apps), x) {
        VisibleAt(c.tools, c.apps, x);
        VisibleAt(d.tools, d.apps, x);
        if m.Some? { RegisterOne(c.registered, name, m.value.descriptor, c.apps, x); }
      }
      SameEntries(d.registered, Visible(d.tools, d.apps));
    }
  }

  /** Re-registering every published tool leaves exactly the visible ones, in whatever order the map is walked. */
  lemma {:induction false} RegisterAllShows(
    tools: map<string, Published>, names: set<string>, registered: map<string, Shown>, apps: bool)
    requires names <= tools.Keys && OwnTools(tools)
    requires forall x :: x !in names ==> Get(registered, x) == Due(tools, apps, x)
    ensures RegisterAll(tools, names, registered, apps) == Visible(tools, apps)
    decreases |names|
  {
    if names == {} {
      forall x ensures Get(registered, x) == Get(Visible(tools, apps), x) { VisibleAt(tools, apps, x); }
      SameEntries(registered, Visible(tools, apps));
    } else {
      var x :| x in names && RegisterAll(tools, names, registered, apps) ==
        RegisterAll(tools, names - {x}, Register(registered, tools[x].descriptor, apps), apps);
      var r := Register(registered, tools[x].descriptor, apps);
      forall y | y !in names - {x} ensures Get(r, y) == Due(tools, apps, y) {
        RegisterOne(registered, x, tools[x].descriptor, apps, y);
      }
      RegisterAllShows(tools, names - {x}, r, apps);
    }
  }

  lemma NextOwned(setup: Setup, c: Catalog, step: Step)
    requires Agrees(setup, c) && Owned(c) && (step.Hello? ==> TidyNames(step.ds))
    ensures Owned(Next(setup, c, step))
  {
    match step
    case Hello(id, ds) => SnapshotKeys(setup, ds);
    case Leave(id) =>
    case BeginOne(given) => InOrderHolds(Offers(c.nodes, Trim(given)), Trim(given));
    case FinishOne =>
      if c.busy.Some? { ApplyServes(setup, c, c.busy.value.name, c.busy.value.offers); }
    case Switch(_) =>
    case RebuildAll(i) =>
      if i < |c.rebuilds| && c.busy.None? { RegisterAllShows(c.tools, c.tools.Keys, c.registered, c.rebuilds[i]); }
  }

  lemma NextServes(setup: Setup, c: Catalog, step: Step)
    requires Agrees(setup, c) && ServerAgrees(c)
    requires (step.Hello? ==> TidyNames(step.ds)) && (step.Switch? ==> c.rebuilds == [])
    ensures ServerAgrees(Next(setup, c, step))
  {
    NextOwned(setup, c, step);
    match step
    case Hello(_, _) =>
    case Leave(_) =>
    case BeginOne(_) =>
    case FinishOne =>
      if c.busy.Some? { ApplyServes(setup, c, c.busy.value.name, c.busy.value.offers); }
    case Switch(apps) =>
    case RebuildAll(i) =>
      if i < |c.rebuilds| && c.busy.None? {
        RegisterAllShows(c.tools, c.tools.Keys, c.registered, c.apps);
        assert Folding.Remove(c.rebuilds, i) == [];
      }
  }

  lemma {:induction false} RunServes(setup: Setup, steps: seq<Step>)
    requires Tidy(steps)
    ensures Owned(Run(setup, Empty, steps))
    ensures Apart(setup, steps) ==> ServerAgrees(Run(setup, Empty, steps))
    decreases |steps|
  {
    if steps != [] {
      var n := |steps| - 1;
      var before := steps[..n];
      assert forall i :: 0 <= i < n ==> before[i] == steps[i] && before[..i] == steps[..i];
      RunServes(setup, before);
      RunKeeps(setup, before);
      NextOwned(setup, Run(setup, Empty, before), steps[n]);
      if Apart(setup, steps) { NextServes(setup, Run(setup, Empty, before), steps[n]); }
    }
  }

  /** What the recomputed catalogue wants listed under a name. */
  ghost function ShouldShow(setup: Setup, c: Catalog, x: string): Option<Shown> {
    match Wanted(setup, c.nodes, x)
    case None => None
    case Some(p) => Present(p.descriptor, c.apps)
  }

  /**
   Main result: with tidy names and changes of the switch that do not overlap, once no re-registration is outstanding the
   server's node tools are exactly the published tools visible under the current switch; once the catalogue has settled
   too, they are the visible part of the recomputed catalogue.
   */
  lemma ServerShowsCatalogue(setup: Setup, steps: seq<Step>)
    requires Tidy(steps) && Apart(setup, steps)
    ensures var c := Run(setup, Empty, steps);
      c.rebuilds == [] ==>
        c.registered == Visible(c.tools, c.apps) &&
        (Settled(c) ==> forall x :: Get(c.registered, x) == ShouldShow(setup, c, x))
  {
    RunServes(setup, steps);
    RunKeeps(setup, steps);
    var c := Run(setup, Empty, steps);
    if c.rebuilds == [] && Settled(c) {
      forall x ensures Get(c.registered, x) == ShouldShow(setup, c, x) {
        VisibleAt(c.tools, c.apps, x);
        assert !Pending(c, x);
      }
    }
  }

  /**
   Overlapping changes of the switch need not agree: when the later change re-registers first, the earlier one wins. The
   server is right afterwards exactly when no published tool looks different under the two settings.
   */
  lemma CrossedSwitches(setup: Setup, c: Catalog)
    requires Owned(c) && c.rebuilds == [] && c.busy.None?
    ensures var d := Rebuild(Rebuild(Flip(Flip(c, !c.apps), c.apps), 1), 0);
      d.apps == c.apps && d.rebuilds == [] && d.tools == c.tools &&
      (d.registered == Visible(d.tools, d.apps) <==> Visible(c.tools, c.apps) == Visible(c.tools, !c.apps))
  {
    var c2 := Flip(Flip(c, !c.apps), c.apps);
    assert c2.rebuilds == [!c.apps, c.apps];
    RegisterAllShows(c.tools, c.tools.Keys, c.registered, c.apps);
    var c3 := Rebuild(c2, 1);
    assert c3.rebuilds == [!c.apps];
    assert c3.registered == Visible(c.tools, c.apps);
    RegisterAllShows(c.tools, c.tools.Keys, c3.registered, !c.apps);
    assert Rebuild(c3, 0).registered == Visible(c.tools, !c.apps);
  }

  /**
   Main result for a fleet: when nothing is outstanding, a name is published exactly when the descriptors of its live
   providers, taken in node order, merge, and as what they merge to; with tidy names the server lists it exactly when it is
   published and visible under the switch.
   */
  lemma FleetCatalogue(rules: Rules, central: string -> bool, steps: seq<Step>, name: string)
    requires var c := Run(Fleet(rules, central), Empty, steps); Settled(c) && c.rebuilds == []
    ensures var c := Run(Fleet(rules, central), Empty, steps);
      var merged := if Unavailable(name) then None else MergeDescriptors(rules, InOrder(Offers(c.nodes, name)));
      Get(c.tools, name) == merged &&
      (Tidy(steps) && Apart(Fleet(rules, central), steps) ==>
        Get(c.registered, name) == if merged.Some? then Present(merged.value.descriptor, c.apps) else None)
  {
    var setup := Fleet(rules, central);
    CatalogueAgrees(setup, steps, name);
    if Tidy(steps) && Apart(setup, steps) { ServerShowsCatalogue(setup, steps); }
    var c := Run(setup, Empty, steps);
    assert !Pending(c, name);
    assert Get(c.tools, name) == Wanted(setup, c.nodes, name);
  }

  // ------------------------------------------------------------------ names with white space around them

  /** A node connects with one descriptor, is reconciled, leaves, and is reconciled again. */
  ghost function Visit(setup: Setup, c: Catalog, id: NodeId, d: Descriptor): Catalog {
    var here := Finish(setup, Begin(setup, Replace(setup, c, id, [d]), d.name));
    Finish(setup, Begin(setup, Withdraw(here, id), d.name))
  }

  lemma PublishedNamesAreTrimmed(setup: Setup, c: Catalog, x: string)
    requires Agrees(setup, c) && !Pending(c, x) && x in c.tools
    ensures Trimmed(x) && Offers(c.nodes, x) != map[]
  {
    assert Get(c.tools, x) == Wanted(setup, c.nodes, x);
    var offers := Offers(c.nodes, x);
    assert InOrder(offers) != [];
    var id :| id in offers;
    assert KeyedByName(setup, c.nodes[id]);
  }

  lemma InOrderOne(id: NodeId, d: Descriptor)
    ensures InOrder(map[id := d]) == [d]
  {
    var offers := map[id := d];
    assert offers.Keys == {id};
    assert LeastOf(offers.Keys) in offers.Keys;
    assert offers - {id} == map[];
  }

  lemma VisitHere(setup: Setup, c: Catalog, d: Descriptor, arrived: Catalog, here: Catalog)
    requires Keyable(setup, Trim(d.name)) && !Unavailable(Trim(d.name)) && c.registered.Keys <= c.tools.Keys
    requires Trim(d.name) !in c.tools && d.name !in c.tools
    requires arrived.tools == c.tools && arrived.registered == c.registered && arrived.busy.None? && arrived.apps == c.apps
    requires InOrder(Offers(arrived.nodes, Trim(d.name))) == [d]
    requires here == Finish(setup, Begin(setup, arrived, d.name))
    ensures here.nodes == arrived.nodes && here.busy.None?
    ensures var m := setup.merge([d]);
      here.registered == if m.Some? && Present(m.value.descriptor, c.apps).Some?
        then c.registered[d.name := Present(m.value.descriptor, c.apps).value] else c.registered
  {
    var m := setup.merge([d]);
    assert Merged(setup, Trim(d.name), [d]) == m;
    if m.Some? {
      assert m.value.descriptor.name == d.name;
    }
  }

  predicate NotOffered(nodes: Snapshots, name: string) { forall k :: k in nodes ==> name !in nodes[k] }

  lemma NobodyOffers(nodes: Snapshots, name: string)
    ensures Offers(nodes, name) == map[] <==> NotOffered(nodes, name)
  {
    forall k | k in nodes && name in nodes[k] ensures k in Offers(nodes, name) { }
  }

  lemma ArrivedOffers(setup: Setup, c: Catalog, id: NodeId, d: Descriptor)
    requires id != 0 && id !in c.nodes && NotOffered(c.nodes, Trim(d.name))
    requires Keyable(setup, Trim(d.name)) && !Unavailable(Trim(d.name))
    ensures var arrived := Replace(setup, c, id, [d]);
      arrived == c.(nodes := c.nodes[id := map[Trim(d.name) := d]], due := c.due + {Trim(d.name)}) &&
      InOrder(Offers(arrived.nodes, Trim(d.name))) == [d] && NotOffered(arrived.nodes - {id}, Trim(d.name))
  {
    assert [d][..0] == [];
    assert Snapshot(setup, [d]) == map[Trim(d.name) := d];
    var arrived := Replace(setup, c, id, [d]);
    assert Offers(arrived.nodes, Trim(d.name)) == map[id := d];
    InOrderOne(id, d);
  }

  lemma VisitLeaves(setup: Setup, here: Catalog, id: NodeId, given: string)
    requires here.busy.None? && Keyable(setup, Trim(given)) && NotOffered(here.nodes - {id}, Trim(given))
    ensures Finish(setup, Begin(setup, Withdraw(here, id), given)).registered == here.registered - {Trim(given)}
  {
    var gone := Withdraw(here, id);
    NobodyOffers(gone.nodes, Trim(given));
    assert Merged(setup, Trim(given), []).None?;
  }

  /**
   A visit by the only provider of a name leaves the server as it was exactly when the announced name has no white space
   around it, or the tool was never listed: tools are added under the announced name and removed under the trimmed one.
   */
  lemma StaleToolExactly(setup: Setup, c: Catalog, id: NodeId, d: Descriptor)
    requires Agrees(setup, c) && ServerAgrees(c) && Settled(c) && c.rebuilds == []
    requires id != 0 && id !in c.nodes && Offers(c.nodes, Trim(d.name)) == map[]
    requires Keyable(setup, Trim(d.name)) && !Unavailable(Trim(d.name))
    ensures Visit(setup, c, id, d).registered == c.registered <==>
      Trimmed(d.name) || setup.merge([d]).None? ||
      Present(setup.merge([d]).value.descriptor, c.apps).None?
  {
    var name := Trim(d.name);
    assert !Pending(c, name) && !Pending(c, d.name);
    assert name !in c.tools by { if name in c.tools { PublishedNamesAreTrimmed(setup, c, name); } }
    assert d.name !in c.tools by { if d.name in c.tools { PublishedNamesAreTrimmed(setup, c, d.name); } }
    NobodyOffers(c.nodes, name);
    ArrivedOffers(setup, c, id, d);
    var arrived := Replace(setup, c, id, [d]);
    var here := Finish(setup, Begin(setup, arrived, d.name));
    VisitHere(setup, c, d, arrived, here);
    VisitLeaves(setup, here, id, d.name);
    Restored(c.registered, here.registered, d.name, name);
  }

  lemma Restored(before: map<string, Shown>, here: map<string, Shown>, given: string, name: string)
    requires given !in before && name !in before
    requires here == before || (given in here && here == before[given := here[given]])
    ensures here - {name} == before <==> given == name || here == before
  {
    if here != before && given == name { assert here - {name} == before; }
    if here != before && given != name { assert given in here - {name}; }
  }
}
