/**
 The server object that owns the catalogue: the snapshot, reconcile, retire and switch operations update its maps in
 place. Each method is one caller running alone; what happens when callers interleave is the step relation of Catalogue.
 */
module CatalogueServer {
  import opened Wrappers
  import opened FleetTools
  import opened Names
  import opened Catalogue

  /** The names in a list, without white space around them. */
  function TrimAll(names: seq<string>): set<string> {
    set i | 0 <= i < |names| :: Trim(names[i])
  }

  ghost predicate Wants(setup: Setup, c: Catalog, x: string) {
    Get(c.tools, x) == Wanted(setup, c.nodes, x)
  }

  /** Nothing outstanding, and the catalogue is what recomputation gives. */
  ghost predicate Whole(setup: Setup, c: Catalog) {
    Settled(c) && Agrees(setup, c)
  }

  // ------------------------------------------------------------------ one loop step

  function Among(offers: map<NodeId, Descriptor>, ids: set<NodeId>): map<NodeId, Descriptor> {
    map id | id in offers && id in ids :: offers[id]
  }

  /** The least remaining node comes first among the remaining offers, if it offers the name at all. */
  lemma FirstOffer(offers: map<NodeId, Descriptor>, ids: set<NodeId>, id: NodeId)
    requires Least(id, ids)
    ensures InOrder(Among(offers, ids)) ==
      (if id in offers then [offers[id]] else []) + InOrder(Among(offers, ids - {id}))
  {
    var rest := Among(offers, ids);
    if id in offers {
      assert Least(id, rest.Keys);
      assert LeastOf(rest.Keys) == id;
      assert rest - {id} == Among(offers, ids - {id});
    } else {
      assert rest == Among(offers, ids - {id});
    }
  }

  ghost predicate Collected(offers: map<NodeId, Descriptor>, ids: set<NodeId>, descriptors: seq<Descriptor>) {
    InOrder(offers) == descriptors + InOrder(Among(offers, ids))
  }

  lemma CollectNext(offers: map<NodeId, Descriptor>, ids: set<NodeId>, id: NodeId, descriptors: seq<Descriptor>)
    requires Least(id, ids) && Collected(offers, ids, descriptors)
    ensures Collected(offers, ids - {id}, if id in offers then descriptors + [offers[id]] else descriptors)
  {
    FirstOffer(offers, ids, id);
  }

  lemma CollectedAll(offers: map<NodeId, Descriptor>, descriptors: seq<Descriptor>)
    requires Collected(offers, {}, descriptors)
    ensures descriptors == InOrder(offers)
  {
    assert Among(offers, {}) == map[];
  }

  lemma TrimNext(names: seq<string>, i: nat)
    requires i < |names|
    ensures TrimAll(names[..i + 1]) == TrimAll(names[..i]) + {Trim(names[i])}
  {
    var (shorter, longer) := (names[..i], names[..i + 1]);
    forall x | x in TrimAll(longer) ensures x in TrimAll(shorter) + {Trim(names[i])} {
      var k :| 0 <= k < |longer| && Trim(longer[k]) == x;
      if k < i { assert shorter[k] == longer[k]; }
    }
    forall x | x in TrimAll(shorter) ensures x in TrimAll(longer) {
      var k :| 0 <= k < |shorter| && Trim(shorter[k]) == x;
      assert longer[k] == shorter[k];
    }
    assert Trim(longer[i]) in TrimAll(longer);
  }

  ghost function Once(setup: Setup, c: Catalog, name: string): Catalog {
    Finish(setup, Begin(setup, c, name))
  }

  /** Reconciling one name settles that name and leaves the other entries alone. */
  lemma OneName(setup: Setup, c: Catalog, name: string)
    requires c.busy.None? && Keyable(setup, name) && Trimmed(name)
    ensures var d := Once(setup, c, name);
      Wants(setup, d, name) && d.nodes == c.nodes && d.apps == c.apps &&
      forall x :: x != name ==> Get(d.tools, x) == Get(c.tools, x)
  {
    assert Wanted(setup, c.nodes, name) == Merged(setup, name, InOrder(Offers(c.nodes, name)));
  }

  lemma OneNameServes(setup: Setup, c: Catalog, name: string)
    requires c.busy.None? && Keyable(setup, name) && Trimmed(name) && Owned(c)
    ensures var d := Once(setup, c, name);
      Owned(d) && (c.registered == Visible(c.tools, c.apps) ==> d.registered == Visible(d.tools, d.apps))
  {
    var offers := Offers(c.nodes, name);
    forall id | id in offers ensures OwnName(name, offers[id]) { assert OwnOffers(c.nodes[id]); }
    InOrderHolds(offers, name);
    ApplyServes(setup, Begin(setup, c, name), name, InOrder(offers));
  }

  function Reconcilable(setup: Setup, names: seq<string>): set<string> {
    set x | x in TrimAll(names) && Keyable(setup, x)
  }

  /** The effect of reconciling a set of names: those are recomputed, the others keep their entries, the server follows. */
  ghost predicate Reconciled(setup: Setup, before: Catalog, after: Catalog, names: set<string>) {
    after.nodes == before.nodes && after.apps == before.apps &&
    (forall x :: x in names ==> Wants(setup, after, x)) &&
    (forall x :: x !in names ==> Get(after.tools, x) == Get(before.tools, x)) &&
    (Owned(before) ==> Owned(after)) &&
    (Owned(before) && before.registered == Visible(before.tools, before.apps) ==>
      after.registered == Visible(after.tools, after.apps))
  }

  lemma ReconcileMore(setup: Setup, before: Catalog, now: Catalog, after: Catalog, seen: set<string>, name: string)
    requires Reconciled(setup, before, now, seen) && now.busy.None?
    requires name !in seen && Keyable(setup, name) && Trimmed(name)
    requires after == Once(setup, now, name).(due := after.due)
    ensures Reconciled(setup, before, after, seen + {name})
  {
    OneName(setup, now, name);
    if Owned(before) { OneNameServes(setup, now, name); }
    forall x | x in seen ensures Wants(setup, after, x) { assert Wants(setup, now, x); }
  }

  function Members(list: seq<string>): set<string> { set i | 0 <= i < |list| :: list[i] }

  lemma MembersMore(list: seq<string>, more: seq<string>)
    ensures Members(list + more) == Members(list) + Members(more)
  {
    var all := list + more;
    forall i | 0 <= i < |list| ensures list[i] in Members(all) { assert all[i] == list[i]; }
    forall i | 0 <= i < |more| ensures more[i] in Members(all) { assert all[|list| + i] == more[i]; }
  }

  /** The elements of a set in some order. */
  method Listed(names: set<string>) returns (list: seq<string>)
    ensures Members(list) == names
  {
    list := [];
    var rest := names;
    while rest != {}
      invariant rest <= names && Members(list) == names - rest
      decreases |rest|
    {
      var x :| x in rest;
      MembersMore(list, [x]);
      assert Members([x]) == {x} by { assert [x][0] == x; }
      list := list + [x];
      rest := rest - {x};
    }
  }

  /** The snapshot of one node is replaced or dropped, and its old and new names become due. */
  ghost predicate Touched(setup: Setup, before: Catalog, changed: Catalog, id: NodeId, ds: seq<Descriptor>) {
    (id != 0 && changed == Replace(setup, before, id, ds)) || changed == Withdraw(before, id)
  }

  /** Names that come from snapshots are already trimmed and can all be reconciled. */
  lemma DueIsReconcilable(setup: Setup, before: Catalog, changed: Catalog, id: NodeId, ds: seq<Descriptor>, names: seq<string>)
    requires WellKeyed(setup, before.nodes) && before.due == {} && Touched(setup, before, changed, id, ds)
    requires changed.due <= Members(names)
    ensures changed.due <= Reconcilable(setup, names)
  {
    SnapshotKeys(setup, ds);
    forall x | x in changed.due ensures x in TrimAll(names) && Keyable(setup, x) {
      if id in before.nodes && x in before.nodes[id] { assert KeyedByName(setup, before.nodes[id]); }
      assert Trimmed(x) && Keyable(setup, x);
      assert x in Members(names);
      var i :| 0 <= i < |names| && names[i] == x;
      assert Trim(names[i]) == x;
    }
  }

  /** After a snapshot change, reconciling the affected names makes the catalogue whole again. */
  lemma WholeAgain(
    setup: Setup, before: Catalog, changed: Catalog, after: Catalog, id: NodeId, ds: seq<Descriptor>, names: seq<string>)
    requires Whole(setup, before) && Touched(setup, before, changed, id, ds) && changed.due <= Members(names)
    requires Reconciled(setup, changed.(due := {}), after, Reconcilable(setup, names)) && Settled(after)
    ensures Whole(setup, after)
  {
    if changed == Withdraw(before, id) { WithdrawKeeps(setup, before, id); } else { ReplaceKeeps(setup, before, id, ds); }
    DueIsReconcilable(setup, before, changed, id, ds, names);
    forall x ensures Wants(setup, after, x) {
      if x !in Reconcilable(setup, names) { assert !Pending(changed, x); }
    }
  }

  /** The server follows, as long as the announced names are tidy. */
  lemma ServesAgain(
    setup: Setup, before: Catalog, changed: Catalog, after: Catalog, id: NodeId, ds: seq<Descriptor>, names: set<string>)
    requires ServerAgrees(before) && before.rebuilds == [] && Touched(setup, before, changed, id, ds) && TidyNames(ds)
    requires Reconciled(setup, changed.(due := {}), after, names) && after.rebuilds == []
    ensures ServerAgrees(after)
  {
    SnapshotKeys(setup, ds);
    assert Owned(changed.(due := {})) by {
      assert OwnOffers(Snapshot(setup, ds));
    }
  }

  class Server {
    const setup: Setup
    var nodes: Snapshots
    var tools: map<string, Published>
    var registered: map<string, Shown>
    var apps: bool

    function State(): Catalog
      reads this
    {
      Catalog(nodes, tools, registered, apps, {}, None, [])
    }

    constructor (setup: Setup)
      ensures this.setup == setup && State() == Empty
    {
      this.setup := setup;
      nodes, tools, registered, apps := map[], map[], map[], true;
    }

    /** Records a node's complete snapshot; the result names everything that may have changed. */
    method ReplaceLiveNodeToolSnapshot(id: NodeId, descriptors: seq<Descriptor>) returns (names: set<string>)
      modifies this`nodes
      ensures State() == Replace(setup, old(State()), id, descriptors).(due := {})
      ensures names == Replace(setup, old(State()), id, descriptors).due
    {
      if id == 0 { return {}; }
      var next: map<string, Descriptor> := map[];
      for i := 0 to |descriptors|
        invariant next == Snapshot(setup, descriptors[..i])
      {
        assert descriptors[..i + 1][..i] == descriptors[..i];
        var name := Trim(descriptors[i].name);
        if name == "" || setup.central(name) || Unavailable(name) { continue; }
        next := next[name := descriptors[i]];
      }
      assert descriptors[..|descriptors|] == descriptors;
      var previous := if id in nodes then nodes[id] else map[];
      nodes := nodes[id := next];
      names := previous.Keys + next.Keys;
    }

    method RemoveLiveNodeToolSnapshot(id: NodeId) returns (names: set<string>)
      modifies this`nodes
      ensures State() == Withdraw(old(State()), id).(due := {})
      ensures names == Withdraw(old(State()), id).due
    {
      names := if id in nodes then nodes[id].Keys else {};
      nodes := nodes - {id};
    }

    /** Walks the node ids in ascending order and collects who offers the name. */
    method LiveNodeToolDescriptors(name: string) returns (descriptors: seq<Descriptor>)
      ensures descriptors == InOrder(Offers(nodes, name))
    {
      descriptors := [];
      var ids := nodes.Keys;
      ghost var offers := Offers(nodes, name);
      assert Among(offers, ids) == offers;
      while ids != {}
        invariant ids <= nodes.Keys
        invariant Collected(offers, ids, descriptors)
        decreases |ids|
      {
        LeastExists(ids);
        var id :| Least(id, ids);
        CollectNext(offers, ids, id, descriptors);
        if name in nodes[id] { descriptors := descriptors + [nodes[id][name]]; }
        ids := ids - {id};
      }
      CollectedAll(offers, descriptors);
    }

    /** Publishes the merged tool or withdraws the name; never keeps an older contract. */
    method ReconcileFleetNodeTool(given: string)
      modifies this`tools, this`registered
      ensures State() == Finish(setup, Begin(setup, old(State()), given))
    {
      var name := Trim(given);
      if name == "" || setup.central(name) { return; }
      var descriptors := LiveNodeToolDescriptors(name);
      if Unavailable(name) || |descriptors| == 0 {
        RetireNodeTool(name);
        return;
      }
      match setup.merge(descriptors)
      case None => RetireNodeTool(name);
      case Some(candidate) =>
        var changed := name !in tools || tools[name].descriptor != candidate.descriptor;
        tools := tools[name := candidate];
        if changed { RegisterNodeTool(candidate.descriptor, apps); }
    }

    method RetireNodeTool(name: string)
      modifies this`tools, this`registered
      ensures tools == old(tools) - {name} && registered == old(registered) - {name}
    {
      tools := tools - {name};
      registered := registered - {name};
    }

    method RegisterNodeTool(d: Descriptor, enabled: bool)
      modifies this`registered
      ensures registered == Register(old(registered), d, enabled)
    {
      match Present(d, enabled)
      case Some(tool) => registered := registered[d.name := tool];
      case None => registered := registered - {d.name};
    }

    /** Every listed name is recomputed; all other entries stay. */
    method ReconcileNodeToolContracts(names: seq<string>)
      modifies this`tools, this`registered
      ensures Reconciled(setup, old(State()), State(), Reconcilable(setup, names))
    {
      var seen: set<string> := {};
      for i := 0 to |names|
        invariant nodes == old(nodes) && apps == old(apps)
        invariant seen == Reconcilable(setup, names[..i])
        invariant Reconciled(setup, old(State()), State(), seen)
      {
        TrimNext(names, i);
        var name := Trim(names[i]);
        if name == "" || setup.central(name) || name in seen { continue; }
        ghost var before := State();
        ReconcileFleetNodeTool(name);
        ReconcileMore(setup, old(State()), before, State(), seen, name);
        seen := seen + {name};
      }
      assert names[..|names|] == names;
    }

    method HandleAgentDockDisconnect(id: NodeId)
      modifies this`nodes, this`tools, this`registered
      ensures nodes == old(nodes) - {id} && apps == old(apps)
      ensures old(Whole(setup, State())) ==> Whole(setup, State())
      ensures old(ServerAgrees(State())) ==> ServerAgrees(State())
    {
      ghost var before := State();
      ghost var changed := Withdraw(before, id);
      var impacted := RemoveLiveNodeToolSnapshot(id);
      var names := Listed(impacted);
      ReconcileNodeToolContracts(names);
      if Whole(setup, before) { WholeAgain(setup, before, changed, State(), id, [], names); }
      if ServerAgrees(before) { ServesAgain(setup, before, changed, State(), id, [], Reconcilable(setup, names)); }
    }

    /** A Hello of an admitted node: record, then recompute what changed together with everything published. */
    method RegisterNodeTools(id: NodeId, admitted: bool, descriptors: seq<Descriptor>)
      modifies this`nodes, this`tools, this`registered
      ensures apps == old(apps)
      ensures nodes == if admitted && id != 0 then old(nodes)[id := Snapshot(setup, descriptors)] else old(nodes) - {id}
      ensures old(Whole(setup, State())) ==> Whole(setup, State())
      ensures old(ServerAgrees(State())) && TidyNames(descriptors) ==> ServerAgrees(State())
    {
      if !admitted || id == 0 {
        HandleAgentDockDisconnect(id);
        return;
      }
      ghost var before := State();
      ghost var changed := Replace(setup, before, id, descriptors);
      var impacted := ReplaceLiveNodeToolSnapshot(id, descriptors);
      var names := Listed(impacted);
      var published := Listed(tools.Keys);
      MembersMore(names, published);
      names := names + published;
      ReconcileNodeToolContracts(names);
      if Whole(setup, before) { WholeAgain(setup, before, changed, State(), id, descriptors, names); }
      if ServerAgrees(before) && TidyNames(descriptors) {
        ServesAgain(setup, before, changed, State(), id, descriptors, Reconcilable(setup, names));
      }
    }

    /** Flips the switch; a change re-registers every published tool. */
    method SetMCPAppsEnabled(enabled: bool)
      modifies this`apps, this`registered
      ensures apps == enabled
      ensures old(ServerAgrees(State())) ==> ServerAgrees(State())
    {
      if apps == enabled { return; }
      ghost var before := State();
      apps := enabled;
      RegisterEveryTool(enabled);
      if ServerAgrees(before) {
        forall x ensures Get(registered, x) == Get(Visible(tools, enabled), x) { VisibleAt(tools, enabled, x); }
        SameEntries(registered, Visible(tools, enabled));
      }
    }

    /** Registers each published tool anew, in any order. */
    method RegisterEveryTool(enabled: bool)
      modifies this`registered
      ensures old(registered).Keys <= tools.Keys && OwnTools(tools) ==> forall x :: Get(registered, x) == Due(tools, enabled, x)
    {
      ghost var tidy := registered.Keys <= tools.Keys && OwnTools(tools);
      var remaining := tools.Keys;
      while remaining != {}
        invariant remaining <= tools.Keys
        invariant tidy ==> forall x :: x !in remaining ==> Get(registered, x) == Due(tools, enabled, x)
        decreases |remaining|
      {
        var name :| name in remaining;
        ghost var listed := registered;
        RegisterNodeTool(tools[name].descriptor, enabled);
        if tidy {
          forall x ensures Get(registered, x) == if x == name then Due(tools, enabled, x) else Get(listed, x) {
            RegisterOne(listed, name, tools[name].descriptor, enabled, x);
          }
        }
        remaining := remaining - {name};
      }
    }
  }
}
