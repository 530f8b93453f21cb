/**
 What the server lists in every run, without assumptions: announced names may carry white space, and changes of the
 switch may overlap.  A tool is listed under its announced spelling, as the switch stood at its last registration;
 besides, a spelling that was given up while it was listed stays until the trimmed name is retired or the spelling is
 announced again, so an untrimmed one stays after its node has left.
 */
module CatalogueListing {
  import opened Wrappers
  import opened SchemaModel
  import opened FleetTools
  import opened Names
  import opened Catalogue

  // ------------------------------------------------------------------ spellings

  /** The published tool carries this very spelling of its name. */
  predicate Spelt(tools: map<string, Published>, x: string) {
    Trim(x) in tools && tools[Trim(x)].descriptor.name == x
  }

  predicate Spells(name: string, ds: seq<Descriptor>) {
    forall i :: 0 <= i < |ds| ==> Trim(ds[i].name) == name
  }

  predicate ToolsSpelt(tools: map<string, Published>) {
    forall y :: y in tools ==> Trim(tools[y].descriptor.name) == y
  }

  /** Published tools and captured offers are announced as spellings of their name. */
  predicate WellSpelt(c: Catalog) {
    ToolsSpelt(c.tools) && (c.busy.Some? ==> Trimmed(c.busy.value.name) && Spells(c.busy.value.name, c.busy.value.offers))
  }

  /** A trimmed name is listed only while it is published. */
  predicate TrimmedPublished(c: Catalog, x: string) {
    Trimmed(x) && x in c.registered ==> x in c.tools
  }

  lemma {:induction false} OffersSpell(offers: map<NodeId, Descriptor>, name: string)
    requires forall id :: id in offers ==> Trim(offers[id].name) == name
    ensures Spells(name, InOrder(offers))
    decreases |offers|
  {
    if offers != map[] {
      var m := LeastOf(offers.Keys);
      Smaller(offers, m);
      OffersSpell(offers - {m}, name);
    }
  }

  lemma ApplySpells(setup: Setup, c: Catalog, name: string, offers: seq<Descriptor>)
    requires ToolsSpelt(c.tools) && Spells(name, offers)
    ensures ToolsSpelt(Apply(setup, c, name, offers).tools)
    ensures Merged(setup, name, offers).Some? ==> Trim(Merged(setup, name, offers).value.descriptor.name) == name
  {
    var m := Merged(setup, name, offers);
    if m.Some? { assert m.value.descriptor.name == offers[0].name; }
  }

  lemma NextSpells(setup: Setup, c: Catalog, step: Step)
    requires Agrees(setup, c) && WellSpelt(c)
    ensures WellSpelt(Next(setup, c, step))
  {
    match step
    case BeginOne(given) =>
      var offers := Offers(c.nodes, Trim(given));
      forall id | id in offers ensures Trim(offers[id].name) == Trim(given) { assert KeyedByName(setup, c.nodes[id]); }
      OffersSpell(offers, Trim(given));
    case FinishOne =>
      if c.busy.Some? { ApplySpells(setup, c, c.busy.value.name, c.busy.value.offers); }
    case Hello(_, _) =>
    case Leave(_) =>
    case Switch(_) =>
    case RebuildAll(_) =>
  }

  // ------------------------------------------------------------------ what one step does to one entry

  /** The switch value with which the step registers the tool of this name, if it does. */
  function Registers(setup: Setup, c: Catalog, step: Step, y: string): Option<bool> {
    match step
    case FinishOne =>
      if c.busy.None? || c.busy.value.name != y then None
      else
        var m := Merged(setup, y, c.busy.value.offers);
        if m.Some? && (y !in c.tools || c.tools[y].descriptor != m.value.descriptor) then Some(c.apps) else None
    case RebuildAll(i) => if i < |c.rebuilds| && c.busy.None? && y in c.tools then Some(c.rebuilds[i]) else None
    case _ => None
  }

  /** The entry that re-registering the tools of these names leaves. */
  function Relisted(tools: map<string, Published>, names: set<string>, registered: map<string, Shown>, apps: bool, x: string)
    : Option<Shown>
  {
    if Trim(x) in names && Spelt(tools, x) then Present(tools[Trim(x)].descriptor, apps) else Get(registered, x)
  }

  lemma RelistOne(tools: map<string, Published>, names: set<string>, y: string, registered: map<string, Shown>, apps: bool, x: string)
    requires y in names && names <= tools.Keys && ToolsSpelt(tools)
    ensures Relisted(tools, names - {y}, Register(registered, tools[y].descriptor, apps), apps, x) ==
      Relisted(tools, names, registered, apps, x)
  {
    RegisterOne(registered, tools[y].descriptor.name, tools[y].descriptor, apps, x);
  }

  /** Re-registering touches the announced spellings and nothing else, in whatever order the map is walked. */
  lemma {:induction false} RegisterAllAt(
    tools: map<string, Published>, names: set<string>, registered: map<string, Shown>, apps: bool, x: string)
    requires names <= tools.Keys && ToolsSpelt(tools)
    ensures Get(RegisterAll(tools, names, registered, apps), x) == Relisted(tools, names, registered, apps, x)
    decreases |names|
  {
    if names != {} {
      var y := FirstOf(tools, names, registered, apps);
      var r := Register(registered, tools[y].descriptor, apps);
      RegisterAllAt(tools, names - {y}, r, apps, x);
      RelistOne(tools, names, y, registered, apps, x);
    }
  }

  /** The name the walk begins with. */
  lemma FirstOf(tools: map<string, Published>, names: set<string>, registered: map<string, Shown>, apps: bool) returns (y: string)
    requires names <= tools.Keys && names != {}
    ensures y in names
    ensures RegisterAll(tools, names, registered, apps) ==
      RegisterAll(tools, names - {y}, Register(registered, tools[y].descriptor, apps), apps)
  {
    y :| y in names && RegisterAll(tools, names, registered, apps) ==
      RegisterAll(tools, names - {y}, Register(registered, tools[y].descriptor, apps), apps);
  }

  /**
   A step that registers the tool gives its spelling the entry of the switch value it uses; otherwise an entry goes only
   when its trimmed name is retired.
   */
  ghost predicate EntryAfter(setup: Setup, c: Catalog, step: Step, x: string) {
    var d := Next(setup, c, step);
    var used := Registers(setup, c, step, Trim(x));
    && TrimmedPublished(d, x)
    && (Spelt(d.tools, x) && used.Some? ==> Get(d.registered, x) == Present(d.tools[Trim(x)].descriptor, used.value))
    && (Spelt(d.tools, x) && used.None? ==>
         Spelt(c.tools, x) && d.tools[Trim(x)].descriptor == c.tools[Trim(x)].descriptor && Get(d.registered, x) == Get(c.registered, x))
    && (!Spelt(d.tools, x) && !(Trimmed(x) && x !in d.tools) ==> Get(d.registered, x) == Get(c.registered, x))
  }

  lemma WithdrawnAt(setup: Setup, c: Catalog, x: string)
    requires WellSpelt(c) && c.busy.Some? && TrimmedPublished(c, x)
    requires Merged(setup, c.busy.value.name, c.busy.value.offers).None?
    ensures EntryAfter(setup, c, FinishOne, x)
  {
  }

  lemma PublishedAt(setup: Setup, c: Catalog, p: Published, x: string)
    requires WellSpelt(c) && c.busy.Some? && TrimmedPublished(c, x)
    requires Merged(setup, c.busy.value.name, c.busy.value.offers) == Some(p)
    ensures EntryAfter(setup, c, FinishOne, x)
  {
    ApplySpells(setup, c, c.busy.value.name, c.busy.value.offers);
    RegisterOne(c.registered, p.descriptor.name, p.descriptor, c.apps, x);
  }

  lemma NextAt(setup: Setup, c: Catalog, step: Step, x: string)
    requires WellSpelt(c) && TrimmedPublished(c, x)
    ensures EntryAfter(setup, c, step, x)
  {
    match step
    case FinishOne =>
      if c.busy.Some? {
        var m := Merged(setup, c.busy.value.name, c.busy.value.offers);
        if m.Some? { PublishedAt(setup, c, m.value, x); } else { WithdrawnAt(setup, c, x); }
      }
    case RebuildAll(i) =>
      if i < |c.rebuilds| && c.busy.None? { RegisterAllAt(c.tools, c.tools.Keys, c.registered, c.rebuilds[i], x); }
    case BeginOne(_) =>
    case Hello(_, _) =>
    case Leave(_) =>
    case Switch(_) =>
  }

  // ------------------------------------------------------------------ whole runs

  /** The switch value with which the tool of this name was last registered. */
  ghost function ListedUnder(setup: Setup, steps: seq<Step>, y: string): bool
    decreases |steps|
  {
    if steps == [] then true
    else
      var n := |steps| - 1;
      var used := Registers(setup, Run(setup, Empty, steps[..n]), steps[n], y);
      if used.Some? then used.value else ListedUnder(setup, steps[..n], y)
  }

  /** After the first j steps the tool was published under this spelling, and the server listed it. */
  ghost predicate ListedAt(setup: Setup, steps: seq<Step>, j: nat, x: string)
    requires j <= |steps|
  {
    var c := Run(setup, Empty, steps[..j]);
    Spelt(c.tools, x) && Present(c.tools[Trim(x)].descriptor, ListedUnder(setup, steps[..j], Trim(x))).Some?
  }

  /** After the first k steps the spelling is given up, and nothing has taken its entry away. */
  ghost predicate GivenUpAt(setup: Setup, steps: seq<Step>, k: nat, x: string)
    requires k <= |steps|
  {
    var c := Run(setup, Empty, steps[..k]);
    !Spelt(c.tools, x) && (Trimmed(x) ==> x in c.tools)
  }

  /** Listed after the first j steps, given up right then, and not taken away since. */
  ghost predicate LeftSince(setup: Setup, steps: seq<Step>, j: nat, x: string)
    requires j < |steps|
  {
    ListedAt(setup, steps, j, x) && GivenUpFrom(setup, steps, j, x)
  }

  ghost predicate GivenUpFrom(setup: Setup, steps: seq<Step>, j: nat, x: string) {
    forall k :: j < k <= |steps| ==> GivenUpAt(setup, steps, k, x)
  }

  /** A spelling was listed at some moment and given up right after it, and its trimmed name has not been retired since. */
  ghost predicate LeftBehind(setup: Setup, steps: seq<Step>, x: string) {
    exists j :: 0 <= j < |steps| && LeftSince(setup, steps, j, x)
  }

  ghost predicate ExactlyListed(setup: Setup, steps: seq<Step>, x: string) {
    var c := Run(setup, Empty, steps);
    if Spelt(c.tools, x)
    then Get(c.registered, x) == Present(c.tools[Trim(x)].descriptor, ListedUnder(setup, steps, Trim(x)))
    else x in c.registered <==> LeftBehind(setup, steps, x)
  }

  lemma Prefixes(steps: seq<Step>, n: nat, j: nat)
    requires j <= n <= |steps|
    ensures steps[..n][..j] == steps[..j]
  {
  }

  lemma SameBefore(setup: Setup, steps: seq<Step>, j: nat, x: string)
    requires steps != [] && j < |steps|
    ensures ListedAt(setup, steps[..|steps| - 1], j, x) == ListedAt(setup, steps, j, x)
    ensures GivenUpAt(setup, steps[..|steps| - 1], j, x) == GivenUpAt(setup, steps, j, x)
  {
    Prefixes(steps, |steps| - 1, j);
  }

  lemma LeftSinceNext(setup: Setup, steps: seq<Step>, j: nat, x: string)
    requires j < |steps| - 1
    ensures LeftSince(setup, steps, j, x) <==>
      GivenUpAt(setup, steps, |steps|, x) && LeftSince(setup, steps[..|steps| - 1], j, x)
  {
    var before := steps[..|steps| - 1];
    SameBefore(setup, steps, j, x);
    forall k | j < k < |steps| ensures GivenUpAt(setup, before, k, x) == GivenUpAt(setup, steps, k, x) {
      SameBefore(setup, steps, k, x);
    }
    if GivenUpFrom(setup, before, j, x) && GivenUpAt(setup, steps, |steps|, x) {
      forall k | j < k <= |steps| ensures GivenUpAt(setup, steps, k, x) {
        if k < |steps| { assert GivenUpAt(setup, before, k, x); }
      }
    }
  }

  /** How being left behind goes on from one moment to the next. */
  lemma LeftBehindNext(setup: Setup, steps: seq<Step>, x: string)
    requires steps != []
    ensures LeftBehind(setup, steps, x) <==>
      GivenUpAt(setup, steps, |steps|, x) &&
      (ListedAt(setup, steps, |steps| - 1, x) || LeftBehind(setup, steps[..|steps| - 1], x))
  {
    var n := |steps| - 1;
    if LeftBehind(setup, steps, x) {
      var j :| 0 <= j < |steps| && LeftSince(setup, steps, j, x);
      if j < n { LeftSinceNext(setup, steps, j, x); }
    }
    if GivenUpAt(setup, steps, |steps|, x) {
      if ListedAt(setup, steps, n, x) { assert LeftSince(setup, steps, n, x); }
      if LeftBehind(setup, steps[..n], x) {
        var j :| 0 <= j < n && LeftSince(setup, steps[..n], j, x);
        LeftSinceNext(setup, steps, j, x);
      }
    }
  }

  lemma LeftIsGivenUp(setup: Setup, steps: seq<Step>, x: string)
    requires LeftBehind(setup, steps, x)
    ensures !Spelt(Run(setup, Empty, steps).tools, x)
  {
    var j :| 0 <= j < |steps| && LeftSince(setup, steps, j, x);
    assert GivenUpAt(setup, steps, |steps|, x);
    assert steps[..|steps|] == steps;
  }

  lemma ExactlyNext(setup: Setup, steps: seq<Step>, x: string)
    requires steps != [] && ExactlyListed(setup, steps[..|steps| - 1], x)
    requires EntryAfter(setup, Run(setup, Empty, steps[..|steps| - 1]), steps[|steps| - 1], x)
    requires LeftBehind(setup, steps, x) <==>
      GivenUpAt(setup, steps, |steps|, x) &&
      (ListedAt(setup, steps, |steps| - 1, x) || LeftBehind(setup, steps[..|steps| - 1], x))
    ensures ExactlyListed(setup, steps, x)
  {
    var n := |steps| - 1;
    var (c, d) := (Run(setup, Empty, steps[..n]), Run(setup, Empty, steps));
    assert d == Next(setup, c, steps[n]);
    assert steps[..|steps|] == steps;
    assert GivenUpAt(setup, steps, |steps|, x) <==> !Spelt(d.tools, x) && (Trimmed(x) ==> x in d.tools);
    assert ListedAt(setup, steps, n, x) <==> Spelt(c.tools, x) && x in c.registered;
    if !Spelt(d.tools, x) {
      if LeftBehind(setup, steps[..n], x) { LeftIsGivenUp(setup, steps[..n], x); }
      assert x in c.registered <==> ListedAt(setup, steps, n, x) || LeftBehind(setup, steps[..n], x);
      assert GivenUpAt(setup, steps, |steps|, x) ==> Get(d.registered, x) == Get(c.registered, x);
    }
  }

  /** Main result: the server's entry under every spelling, after every run whatsoever. */
  lemma {:induction false} ServerExactly(setup: Setup, steps: seq<Step>, x: string)
    ensures ExactlyListed(setup, steps, x)
    ensures WellSpelt(Run(setup, Empty, steps)) && TrimmedPublished(Run(setup, Empty, steps), x)
    decreases |steps|
  {
    if steps != [] {
      var n := |steps| - 1;
      var before := steps[..n];
      ServerExactly(setup, before, x);
      RunKeeps(setup, before);
      var c := Run(setup, Empty, before);
      NextSpells(setup, c, steps[n]);
      NextAt(setup, c, steps[n], x);
      LeftBehindNext(setup, steps, x);
      ExactlyNext(setup, steps, x);
    }
  }

  // ------------------------------------------------------------------ when the server is right

  /** What the server ought to list under a spelling, recomputed from the live descriptors and the switch. */
  ghost function Ought(setup: Setup, c: Catalog, x: string): Option<Shown> {
    match Wanted(setup, c.nodes, Trim(x))
    case None => None
    case Some(p) => if p.descriptor.name == x then Present(p.descriptor, c.apps) else None
  }

  /** The tool is listed in the same form whether the switch is on or off. */
  predicate SameEitherWay(d: Descriptor) {
    VisibilityOf(d.meta).Some? && Ui in d.meta ==> d.meta[Ui] == VisibilityField([ModelName])
  }

  lemma SameEitherWayMeans(d: Descriptor)
    ensures SameEitherWay(d) <==> Present(d, true) == Present(d, false)
  {
    if VisibilityOf(d.meta).Some? && Ui in d.meta {
      FacesCases(d.meta);
      var faces := VisibilityOf(d.meta).value;
      if faces == [ModelName] {
        assert d.meta[Ui := VisibilityField(faces)] == d.meta <==> d.meta[Ui] == VisibilityField(faces) by {
          assert d.meta[Ui := VisibilityField(faces)][Ui] == VisibilityField(faces);
        }
      }
      FacesBack([ModelName]);
      if d.meta[Ui] == VisibilityField([ModelName]) { OnlyUi(d.meta); }
    }
  }

  /** Visibility is read from the one entry. */
  lemma OnlyUi(meta: Fields)
    requires Ui in meta && meta[Ui] == VisibilityField([ModelName])
    ensures VisibilityOf(meta) == Some([ModelName])
  {
    FacesBack([ModelName]);
  }

  /**
   Main result: after every run that has settled, with any names and any overlapping changes of the switch, the server is
   right about a spelling exactly when the tool was last registered under the present setting or looks the same under
   both, and, where no tool has this spelling, exactly when none was left behind.
   */
  lemma ServerRightExactly(setup: Setup, steps: seq<Step>, x: string)
    requires Settled(Run(setup, Empty, steps))
    ensures var c := Run(setup, Empty, steps);
      Get(c.registered, x) == Ought(setup, c, x) <==>
        if Spelt(c.tools, x) then ListedUnder(setup, steps, Trim(x)) == c.apps || SameEitherWay(c.tools[Trim(x)].descriptor)
        else !LeftBehind(setup, steps, x)
  {
    var c := Run(setup, Empty, steps);
    ServerExactly(setup, steps, x);
    RunKeeps(setup, steps);
    assert !Pending(c, Trim(x));
    assert Get(c.tools, Trim(x)) == Wanted(setup, c.nodes, Trim(x));
    if Spelt(c.tools, x) { SameEitherWayMeans(c.tools[Trim(x)].descriptor); }
  }

  // ------------------------------------------------------------------ two runs that leave the server wrong

  lemma RunOn(setup: Setup, steps: seq<Step>, step: Step)
    ensures Run(setup, Empty, steps + [step]) == Next(setup, Run(setup, Empty, steps), step)
  {
    assert (steps + [step])[..|steps|] == steps;
  }

  function Tool(name: string, meta: Fields): Descriptor {
    Descriptor(name, "", "", Null, Null, meta, map[])
  }

  lemma OneMerges(rules: Rules, d: Descriptor)
    requires VisibilityOf(d.meta).Some?
    ensures MergeDescriptors(rules, [d]).Some?
    ensures var p := MergeDescriptors(rules, [d]).value; p.descriptor.name == d.name && VisibilityOf(p.descriptor.meta) == VisibilityOf(d.meta)
  {
    PublishedExactlyWhen(rules, [d]);
    VisibilityKept([d], 0);
  }

  function Announced(name: string, meta: Fields): seq<Step> {
    [Hello(1, [Tool(name, meta)]), BeginOne(name), FinishOne]
  }

  lemma AnnouncedSteps(setup: Setup, name: string, meta: Fields)
    ensures Run(setup, Empty, Announced(name, meta)) == Finish(setup, Begin(setup, Replace(setup, Empty, 1, [Tool(name, meta)]), name))
  {
    var hello := Hello(1, [Tool(name, meta)]);
    RunOn(setup, [], hello);
    RunOn(setup, [hello], BeginOne(name));
    RunOn(setup, [hello, BeginOne(name)], FinishOne);
    assert [] + [hello] == [hello] && [hello] + [BeginOne(name)] == [hello, BeginOne(name)];
    assert [hello, BeginOne(name)] + [FinishOne] == Announced(name, meta);
  }

  /** The catalogue of a node that alone announces the tool published as p. */
  function OnlyTool(name: string, meta: Fields, p: Published): Catalog {
    Empty.(nodes := map[1 := map["a" := Tool(name, meta)]], tools := map["a" := p],
           registered := Register(map[], p.descriptor, true))
  }

  /** After a first node's Hello and its reconciliation its one tool is published. */
  lemma AnnouncedRuns(rules: Rules, central: string -> bool, name: string, meta: Fields) returns (p: Published)
    requires Trim(name) == "a" && !central("a") && VisibilityOf(meta).Some?
    ensures p.descriptor.name == name && VisibilityOf(p.descriptor.meta) == VisibilityOf(meta)
    ensures Run(Fleet(rules, central), Empty, Announced(name, meta)) == OnlyTool(name, meta, p)
  {
    var setup := Fleet(rules, central);
    var d := Tool(name, meta);
    OneMerges(rules, d);
    p := MergeDescriptors(rules, [d]).value;
    ArrivedOffers(setup, Empty, 1, d);
    AnnouncedSteps(setup, name, meta);
    var c2 := Begin(setup, Replace(setup, Empty, 1, [d]), name);
    assert c2 == Empty.(nodes := map[1 := map["a" := d]], busy := Some(Capture("a", [d])));
    assert Merged(setup, "a", [d]) == Some(p);
  }

  function PaddedName(): seq<Step> {
    Announced(" a", map[]) + [Leave(1)] + [BeginOne(" a")] + [FinishOne]
  }

  /** A node announces " a" and leaves: no node and no published tool remains, and the server still lists " a". */
  lemma PaddedNameExample(rules: Rules, central: string -> bool)
    requires !central("a")
    ensures var c := Run(Fleet(rules, central), Empty, PaddedName());
      Settled(c) && c.rebuilds == [] && c.nodes == map[] && c.tools == map[] && " a" in c.registered
  {
    var setup := Fleet(rules, central);
    TrimPadded();
    var p := AnnouncedRuns(rules, central, " a", map[]);
    var s3 := Announced(" a", map[]);
    RunOn(setup, s3, Leave(1));
    RunOn(setup, s3 + [Leave(1)], BeginOne(" a"));
    RunOn(setup, s3 + [Leave(1)] + [BeginOne(" a")], FinishOne);
    LastLeaves(setup, " a", map[], p);
  }

  lemma LastLeaves(setup: Setup, name: string, meta: Fields, p: Published)
    requires Trim(name) == "a" && !setup.central("a")
    ensures var c := Finish(setup, Begin(setup, Withdraw(OnlyTool(name, meta, p), 1), name));
      c == Empty.(registered := Register(map[], p.descriptor, true) - {"a"})
  {
    var c4 := Withdraw(OnlyTool(name, meta, p), 1);
    assert c4.nodes == map[] && c4.due == {"a"};
    assert Offers(c4.nodes, "a") == map[];
    assert Begin(setup, c4, name) == c4.(due := {}, busy := Some(Capture("a", [])));
  }

  lemma TrimPadded()
    ensures Trim(" a") == "a" && Trimmed("a")
  {
    assert " a"[1..] == "a";
    assert TrimLeft(" a") == TrimLeft("a") == "a";
  }

  function CrossedChanges(): seq<Step> {
    Announced("a", map[Ui := VisibilityField([AppName])]) + [Switch(false)] + [Switch(true)] + [RebuildAll(1)] + [RebuildAll(0)]
  }

  /** The switch goes off and on, and the later change re-registers first: a tool for Apps alone stays missing. */
  lemma CrossedSwitchesExample(rules: Rules, central: string -> bool)
    requires !central("a")
    ensures var setup := Fleet(rules, central);
      var c := Run(setup, Empty, CrossedChanges());
      Settled(c) && c.rebuilds == [] && c.apps && Ought(setup, c, "a").Some? && "a" !in c.registered
  {
    var setup := Fleet(rules, central);
    var meta := map[Ui := VisibilityField([AppName])];
    TrimPadded();
    FacesBack([AppName]);
    var p := AnnouncedRuns(rules, central, "a", meta);
    CrossedSteps(setup, Announced("a", meta), "a");
    AppsOnly(p.descriptor);
    AppsOnlyMissing(setup, CrossedChanges(), "a", p);
  }

  lemma AppsOnly(d: Descriptor)
    requires VisibilityOf(d.meta) == Some([AppName])
    ensures Present(d, false).None? && Present(d, true).Some?
  {
  }

  lemma AppsOnlyMissing(setup: Setup, steps: seq<Step>, x: string, p: Published)
    requires Present(p.descriptor, false).None? && Present(p.descriptor, true).Some? && p.descriptor.name == x && Trimmed(x)
    requires var c := Run(setup, Empty, steps); Settled(c) && c.apps && Get(c.tools, x) == Some(p)
    requires !ListedUnder(setup, steps, x)
    ensures var c := Run(setup, Empty, steps); Ought(setup, c, x).Some? && x !in c.registered
  {
    var c := Run(setup, Empty, steps);
    ServerExactly(setup, steps, x);
    RunKeeps(setup, steps);
    assert !Pending(c, x);
  }

  lemma CrossedSteps(setup: Setup, steps: seq<Step>, y: string)
    requires var c := Run(setup, Empty, steps); c.apps && c.rebuilds == [] && c.busy.None? && y in c.tools
    ensures var all := steps + [Switch(false)] + [Switch(true)] + [RebuildAll(1)] + [RebuildAll(0)];
      var (c, d) := (Run(setup, Empty, steps), Run(setup, Empty, all));
      d == c.(registered := d.registered) && !ListedUnder(setup, all, y)
  {
    var s4 := steps + [Switch(false)];
    var s6 := s4 + [Switch(true)] + [RebuildAll(1)];
    RunOn(setup, steps, Switch(false));
    RunOn(setup, s4, Switch(true));
    RunOn(setup, s4 + [Switch(true)], RebuildAll(1));
    RunOn(setup, s6, RebuildAll(0));
    assert Run(setup, Empty, s4 + [Switch(true)]).rebuilds == [false, true];
    assert Run(setup, Empty, s6).rebuilds == [false];
    assert (s6 + [RebuildAll(0)])[..|s6|] == s6;
  }
}
