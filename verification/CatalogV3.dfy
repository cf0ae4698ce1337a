/** The live version-3 catalog: snapshots derived from discoveries, generations and freshness. */
module CatalogV3 {
  import opened Json
  import opened Schemas
  import opened ProjectionV3
  import opened PublicRoot
  import Text

  type Definitions = map<string, Value>

  datatype ToolState =
    | Ready(tool: Value)
    | Unusable(tool: Value, reason: Issue)
    | Unavailable(tool: Value)

  type Tools = map<string, ToolState>

  datatype Snapshot = Snapshot(generation: nat, tools: Tools)

  datatype Config = Config(exposures: map<string, Exposure>, targets: set<string>) {
    /** What configuration validation establishes. */
    ghost predicate WellFormed() {
      forall n :: n in exposures ==> exposures[n].publicName == n && exposures[n].targetId in targets
    }
  }

  /** The catalog state behind the mutex. */
  datatype Catalog = Catalog(snapshot: Snapshot, freshTargets: set<string>, listed: bool)

  // Projection of one exposure.

  function ReasonText(reason: Issue): string {
    match reason
    case PropertyNotInUpstream => "PROPERTY_NOT_IN_UPSTREAM"
    case RequiredPropertyUnsatisfied => "REQUIRED_PROPERTY_UNSATISFIED"
    case FixedValueInvalid => "FIXED_VALUE_INVALID"
    case SchemaConstraintConflict => "SCHEMA_CONSTRAINT_CONFLICT"
    case UnsupportedSchema => "UNSUPPORTED_SCHEMA"
    case ToolNotFound => "TOOL_NOT_FOUND"
  }

  function Stub(e: Exposure, description: string): Value {
    Obj(map["name" := Str(e.publicName), "description" := Str(description),
            "inputSchema" := Obj(map["type" := Str("object"), "properties" := Obj(map[]), "required" := Arr([]),
                                     "additionalProperties" := Bool(false)])])
  }

  function BlockedState(e: Exposure, reason: Issue): ToolState {
    Unusable(Stub(e, "Unavailable: upstream definition is incompatible (" + ReasonText(reason) + ")"), reason)
  }

  function UnavailableState(e: Exposure): ToolState {
    Unavailable(Stub(e, "Unavailable: upstream tool metadata has not been retrieved; retry later"))
  }

  function Project(rx: Engine, e: Exposure, upstream: Value): ToolState {
    match Derive(rx, e, upstream)
    case Ok(tool) => Ready(tool)
    case Err(reason) => BlockedState(e, reason)
  }

  /** Where the definitions behind a target's entries came from. */
  datatype Source = Cached(defs: Definitions) | Discovered(defs: Definitions)

  function StateFrom(rx: Engine, e: Exposure, source: Source): ToolState {
    if e.upstreamTool in source.defs then Project(rx, e, source.defs[e.upstreamTool])
    else if source.Cached? then UnavailableState(e)
    else BlockedState(e, ToolNotFound)
  }

  // Discovery.

  function Named(tools: seq<Value>, name: string): seq<Value> {
    if tools == [] then []
    else
      Named(tools[..|tools| - 1], name)
      + if NameOf(tools[|tools| - 1]) == Some(name) then [tools[|tools| - 1]] else []
  }

  function AllNames(tools: seq<Value>): set<string> {
    set t | t in tools && NameOf(t).Some? :: NameOf(t).value
  }

  function DuplicateStub(name: string): Value {
    Obj(map["name" := Str(name), "inputSchema" := Null])
  }

  /** The definitions of a listing: a name listed once keeps its tool, a repeated one an unusable stub. */
  function Collected(tools: seq<Value>): Definitions {
    map name | name in AllNames(tools) ::
      if |Named(tools, name)| == 1 then Named(tools, name)[0] else DuplicateStub(name)
  }

  function Duplicates(tools: seq<Value>): set<string> {
    set name | name in AllNames(tools) && |Named(tools, name)| != 1
  }

  lemma {:induction false} NamedNonEmpty(tools: seq<Value>, name: string)
    ensures Named(tools, name) != [] <==> name in AllNames(tools)
  {
    if tools != [] {
      var front, last := tools[..|tools| - 1], tools[|tools| - 1];
      NamedNonEmpty(front, name);
      assert tools == front + [last];
      if name in AllNames(tools) && NameOf(last) != Some(name) {
        var t :| t in tools && NameOf(t) == Some(name);
        assert t in front;
      }
    }
  }

  /** What the loop has read: the last tool of each name, and the names seen twice. */
  ghost function Reading(tools: seq<Value>): (Definitions, set<string>) {
    if tools == [] then (map[], {})
    else
      var (defs, twice) := Reading(tools[..|tools| - 1]);
      var name := NameOf(tools[|tools| - 1]);
      if name.None? then (defs, twice)
      else (defs[name.value := tools[|tools| - 1]], if name.value in defs then twice + {name.value} else twice)
  }

  lemma NamesGrow(tools: seq<Value>, tool: Value)
    ensures AllNames(tools + [tool]) == AllNames(tools) + if NameOf(tool).Some? then {NameOf(tool).value} else {}
  {
    hide NameOf;
    var more := tools + [tool];
    assert forall t :: t in more <==> t in tools || t == tool;
  }

  lemma {:induction false} ReadingNames(tools: seq<Value>)
    ensures Reading(tools).0.Keys == AllNames(tools)
  {
    hide NameOf;
    if tools != [] {
      var front, last := tools[..|tools| - 1], tools[|tools| - 1];
      ReadingNames(front);
      NamesGrow(front, last);
      assert tools == front + [last];
    }
  }

  lemma {:induction false} ReadingOne(tools: seq<Value>, name: string)
    requires name in AllNames(tools)
    ensures name in Reading(tools).0 && Named(tools, name) != []
    ensures Reading(tools).0[name] == Named(tools, name)[|Named(tools, name)| - 1]
    ensures name in Reading(tools).1 <==> |Named(tools, name)| != 1
  {
    hide NameOf;
    hide AllNames;
    ReadingNames(tools);
    NamedNonEmpty(tools, name);
    var front, last := tools[..|tools| - 1], tools[|tools| - 1];
    ReadingNames(front);
    NamedNonEmpty(front, name);
    RepeatsAreNames(front);
    if name in AllNames(front) { ReadingOne(front, name); }
  }

  lemma {:induction false} RepeatsAreNames(tools: seq<Value>)
    ensures Reading(tools).1 <= Reading(tools).0.Keys
  {
    hide NameOf;
    if tools != [] { RepeatsAreNames(tools[..|tools| - 1]); }
  }

  lemma ReadingCollects(tools: seq<Value>)
    ensures Reading(tools).1 == Duplicates(tools)
    ensures Reading(tools).0 + (map n | n in Reading(tools).1 :: DuplicateStub(n)) == Collected(tools)
  {
    hide NameOf;
    hide AllNames;
    hide Reading;
    hide Named;
    hide DuplicateStub;
    ReadingNames(tools);
    RepeatsAreNames(tools);
    forall n | n in AllNames(tools) ensures n in Reading(tools).1 <==> |Named(tools, n)| != 1 { ReadingOne(tools, n); }
    assert Reading(tools).1 == Duplicates(tools);
    var r := Reading(tools).0 + map n | n in Reading(tools).1 :: DuplicateStub(n);
    forall n | n in Collected(tools) ensures n in r && r[n] == Collected(tools)[n] { ReadingOne(tools, n); }
    assert r.Keys == AllNames(tools);
  }

  /**
   * The discovery loop: last one wins while reading, then repeated names are replaced by stubs.
   * The listing may be cached only when no name repeats.
   */
  method CollectTools(tools: seq<Value>) returns (discovered: Definitions, cacheable: bool)
    ensures discovered == Collected(tools)
    ensures cacheable <==> Duplicates(tools) == {}
  {
    hide NameOf;
    hide Collected;
    hide Duplicates;
    discovered := map[];
    var duplicates: set<string> := {};
    for i := 0 to |tools|
      invariant (discovered, duplicates) == Reading(tools[..i])
    {
      ghost var next := tools[..i + 1];
      assert next[..|next| - 1] == tools[..i] && next[|next| - 1] == tools[i];
      var name := NameOf(tools[i]);
      if name.Some? {
        if name.value in discovered { duplicates := duplicates + {name.value}; }
        discovered := discovered[name.value := tools[i]];
      }
    }
    assert tools[..|tools|] == tools;
    ReadingCollects(tools);
    cacheable := duplicates == {};
    discovered := discovered + map n | n in duplicates :: DuplicateStub(n);
  }

  // One refresh.

  /** What the outside does for one target: is it connected, and what would a discovery return. */
  datatype Answer = Answer(connected: bool, reply: Option<seq<Value>>)

  type World = string -> Answer

  predicate Attempts(c: Catalog, target: string, world: World, force: bool) {
    force || target !in c.freshTargets || !world(target).connected
  }

  function Found(cfg: Config, c: Catalog, targets: set<string>, world: World, force: bool): map<string, Definitions> {
    map t | t in targets && t in cfg.targets && Attempts(c, t, world, force) && world(t).reply.Some? ::
      Collected(world(t).reply.value)
  }

  function Failed(cfg: Config, c: Catalog, targets: set<string>, world: World, force: bool): set<string> {
    set t | t in targets && Attempts(c, t, world, force) && (t !in cfg.targets || world(t).reply.None?)
  }

  /** A target's entries replaced by the projections of one definition map. */
  function ReplaceTarget(rx: Engine, cfg: Config, target: string, defs: Definitions, tools: Tools): Tools
    requires tools.Keys == cfg.exposures.Keys
  {
    map n | n in cfg.exposures ::
      if cfg.exposures[n].targetId == target then StateFrom(rx, cfg.exposures[n], Discovered(defs)) else tools[n]
  }

  /** The whole next tool map: rediscovered targets reprojected, every other entry kept. */
  function NextTools(rx: Engine, cfg: Config, tools: Tools, found: map<string, Definitions>): Tools
    requires tools.Keys == cfg.exposures.Keys
  {
    map n | n in cfg.exposures ::
      if cfg.exposures[n].targetId in found
      then StateFrom(rx, cfg.exposures[n], Discovered(found[cfg.exposures[n].targetId]))
      else tools[n]
  }

  function Adopt(c: Catalog, tools: Tools, nextFresh: set<string>, markListed: bool): Catalog {
    Catalog(if tools != c.snapshot.tools then Snapshot(c.snapshot.generation + 1, tools) else c.snapshot,
            nextFresh, c.listed || markListed)
  }

  /** A refresh computed from the catalog it read, swapped in against the catalog it finds. */
  function RefreshFrom(rx: Engine, cfg: Config, prior: Catalog, current: Catalog, targets: set<string>, world: World,
                       force: bool, markListed: bool): Catalog
    requires prior.snapshot.tools.Keys == cfg.exposures.Keys
  {
    Adopt(current, NextTools(rx, cfg, prior.snapshot.tools, Found(cfg, prior, targets, world, force)),
          (prior.freshTargets + Found(cfg, prior, targets, world, force).Keys)
          - Failed(cfg, prior, targets, world, force),
          markListed)
  }

  /** One refresh of a set of targets, undisturbed. */
  function Refresh(rx: Engine, cfg: Config, c: Catalog, targets: set<string>, world: World, force: bool,
                   markListed: bool)
    : Catalog
    requires c.snapshot.tools.Keys == cfg.exposures.Keys
  {
    RefreshFrom(rx, cfg, c, c, targets, world, force, markListed)
  }

  function ExposedTargets(cfg: Config): set<string> {
    set n | n in cfg.exposures :: cfg.exposures[n].targetId
  }

  /** Whether a refresh must announce its result with a notification. */
  predicate Announces(before: Catalog, after: Catalog) {
    before.listed && after.snapshot.tools != before.snapshot.tools
  }

  // What a catalog is: an index over the definitions last obtained.

  ghost predicate Refines(rx: Engine, cfg: Config, tools: Tools, sources: map<string, Source>) {
    && tools.Keys == cfg.exposures.Keys
    && forall n :: n in cfg.exposures ==>
         cfg.exposures[n].targetId in sources
         && tools[n] == StateFrom(rx, cfg.exposures[n], sources[cfg.exposures[n].targetId])
  }

  ghost function NextSources(sources: map<string, Source>, found: map<string, Definitions>): map<string, Source> {
    sources + map t | t in found :: Discovered(found[t])
  }

  /** Every entry stays the projection of its target's last successful discovery, or of its cache. */
  lemma NextToolsRefines(rx: Engine, cfg: Config, tools: Tools, sources: map<string, Source>,
                         found: map<string, Definitions>)
    requires Refines(rx, cfg, tools, sources)
    ensures Refines(rx, cfg, NextTools(rx, cfg, tools, found), NextSources(sources, found))
  {
    hide StateFrom;
  }

  /** A refresh in which no discovery succeeds leaves every projection as it was. */
  lemma FailureChangesNothing(rx: Engine, cfg: Config, c: Catalog, targets: set<string>, world: World, force: bool,
                              mark: bool)
    requires c.snapshot.tools.Keys == cfg.exposures.Keys
    requires forall t :: t in targets && Attempts(c, t, world, force) ==> world(t).reply.None?
    ensures Refresh(rx, cfg, c, targets, world, force, mark).snapshot == c.snapshot
    ensures Refresh(rx, cfg, c, targets, world, force, mark).freshTargets <= c.freshTargets
  {
    hide StateFrom;
    hide Collected;
    hide NextTools;
    assert Found(cfg, c, targets, world, force) == map[];
    ReplaceNone(rx, cfg, c.snapshot.tools);
  }

  // A refresh in terms of exposures and of what their targets answered.

  /** A tool projected for an exposure: ready as derived, or blocked under its own name for the reason it cannot be. */
  ghost predicate Projected(rx: Engine, e: Exposure, tool: Value, state: ToolState) {
    match Derive(rx, e, tool)
    case Ok(public) => state == Ready(public)
    case Err(reason) => state.Unusable? && state.reason == reason && NameOf(state.tool) == Some(e.publicName)
  }

  lemma ProjectProjects(rx: Engine, e: Exposure, tool: Value)
    ensures Projected(rx, e, tool, Project(rx, e, tool))
  {
    hide Derive;
    BlockedNamed(e);
  }

  lemma BlockedNamed(e: Exposure)
    ensures forall reason :: BlockedState(e, reason).Unusable? && BlockedState(e, reason).reason == reason
                             && NameOf(BlockedState(e, reason).tool) == Some(e.publicName)
  {
    hide ReasonText;
  }

  /** The state of an exposure after its target listed these tools: its own tool, projected. */
  ghost predicate ListedAs(rx: Engine, e: Exposure, tools: seq<Value>, state: ToolState) {
    && (forall i :: 0 <= i < |tools| && OnlyNamed(tools, e.upstreamTool, i) ==> Projected(rx, e, tools[i], state))
    && (NotNamed(tools, e.upstreamTool) ==>
          state.Unusable? && state.reason == ToolNotFound && NameOf(state.tool) == Some(e.publicName))
    && (NamedTwice(tools, e.upstreamTool) ==>
          Projected(rx, e, Obj(map["name" := Str(e.upstreamTool), "inputSchema" := Null]), state))
  }

  ghost predicate OnlyNamed(tools: seq<Value>, name: string, i: nat)
    requires i < |tools|
  {
    NameOf(tools[i]) == Some(name) && forall j :: 0 <= j < |tools| && j != i ==> NameOf(tools[j]) != Some(name)
  }

  ghost predicate NotNamed(tools: seq<Value>, name: string) {
    forall i :: 0 <= i < |tools| ==> NameOf(tools[i]) != Some(name)
  }

  ghost predicate NamedTwice(tools: seq<Value>, name: string) {
    exists i, j :: 0 <= i < j < |tools| && NameOf(tools[i]) == Some(name) == NameOf(tools[j])
  }

  lemma {:induction false} NamedNone(tools: seq<Value>, name: string)
    ensures Named(tools, name) == [] <==> NotNamed(tools, name)
  {
    hide NameOf;
    if tools != [] {
      var front, last := tools[..|tools| - 1], tools[|tools| - 1];
      NamedNone(front, name);
      assert tools == front + [last];
      assert NotNamed(tools, name) <==> NotNamed(front, name) && NameOf(last) != Some(name);
    }
  }

  lemma {:induction false} NamedOnce(tools: seq<Value>, name: string, i: nat)
    requires i < |tools| && OnlyNamed(tools, name, i)
    ensures Named(tools, name) == [tools[i]]
  {
    hide NameOf;
    var front := tools[..|tools| - 1];
    if i == |front| {
      NamedNone(front, name);
    } else {
      assert forall j :: 0 <= j < |front| ==> front[j] == tools[j];
      NamedOnce(front, name, i);
    }
  }

  lemma {:induction false} NamedAgain(tools: seq<Value>, name: string, i: nat, j: nat)
    requires i < j < |tools| && NameOf(tools[i]) == Some(name) == NameOf(tools[j])
    ensures |Named(tools, name)| >= 2
  {
    hide NameOf;
    var front := tools[..|tools| - 1];
    if j < |front| {
      NamedAgain(front, name, i, j);
    } else {
      NamedNone(front, name);
      assert front[i] == tools[i];
    }
  }

  lemma CollectedAs(rx: Engine, e: Exposure, tools: seq<Value>)
    ensures ListedAs(rx, e, tools, StateFrom(rx, e, Discovered(Collected(tools))))
  {
    hide NameOf;
    hide Named;
    hide AllNames;
    hide Project;
    hide BlockedState;
    hide OnlyNamed;
    hide NamedTwice;
    hide Projected;
    var u := e.upstreamTool;
    BlockedNamed(e);
    if u in Collected(tools) { ProjectProjects(rx, e, Collected(tools)[u]); }
    NamedNone(tools, u);
    NamedNonEmpty(tools, u);
    forall i | 0 <= i < |tools| && OnlyNamed(tools, u, i) ensures Named(tools, u) == [tools[i]] {
      NamedOnce(tools, u, i);
    }
    if NamedTwice(tools, u) { TwiceIsMany(tools, u); }
  }

  lemma TwiceIsMany(tools: seq<Value>, name: string)
    requires NamedTwice(tools, name)
    ensures |Named(tools, name)| >= 2
  {
    hide NameOf;
    var i, j :| 0 <= i < j < |tools| && NameOf(tools[i]) == Some(name) == NameOf(tools[j]);
    NamedAgain(tools, name, i, j);
  }

  /** The target is asked unless it is fresh and connected, and answers if it is configured and replies. */
  ghost predicate Asked(before: Catalog, target: string, world: World, force: bool) {
    force || !(target in before.freshTargets && world(target).connected)
  }

  ghost predicate Answered(cfg: Config, target: string, world: World) {
    target in cfg.targets && world(target).reply.Some?
  }

  /**
   * One exposure whose target is refreshed. The target is fresh afterwards exactly when it was not
   * asked or it answered; if it answered the entry is what was listed, and otherwise it is kept.
   */
  ghost predicate Refreshed(rx: Engine, cfg: Config, e: Exposure, before: Catalog, after: Catalog, world: World,
                            force: bool)
  {
    && (e.targetId in after.freshTargets <==>
          !Asked(before, e.targetId, world, force) || Answered(cfg, e.targetId, world))
    && e.publicName in before.snapshot.tools && e.publicName in after.snapshot.tools
    && (if Asked(before, e.targetId, world, force) && Answered(cfg, e.targetId, world)
        then ListedAs(rx, e, world(e.targetId).reply.value, after.snapshot.tools[e.publicName])
        else after.snapshot.tools[e.publicName] == before.snapshot.tools[e.publicName])
  }

  ghost predicate Untouched(e: Exposure, before: Catalog, after: Catalog) {
    && (e.targetId in after.freshTargets <==> e.targetId in before.freshTargets)
    && e.publicName in before.snapshot.tools && e.publicName in after.snapshot.tools
    && after.snapshot.tools[e.publicName] == before.snapshot.tools[e.publicName]
  }

  /** A list request: every exposure is refreshed, and what is listed is what the catalog then holds. */
  ghost predicate AllRefreshed(rx: Engine, cfg: Config, before: Catalog, after: Catalog, world: World) {
    && after.listed && after.snapshot.tools.Keys == cfg.exposures.Keys
    && forall n :: n in cfg.exposures ==> Refreshed(rx, cfg, cfg.exposures[n], before, after, world, false)
  }

  /** A refresh of one target: its exposures are refreshed, and no other. */
  ghost predicate OneRefreshed(rx: Engine, cfg: Config, target: string, before: Catalog, after: Catalog, world: World,
                               force: bool)
  {
    && after.listed == before.listed && after.snapshot.tools.Keys == cfg.exposures.Keys
    && forall n :: n in cfg.exposures ==>
         if cfg.exposures[n].targetId == target
         then Refreshed(rx, cfg, cfg.exposures[n], before, after, world, force)
         else Untouched(cfg.exposures[n], before, after)
  }

  /** As the process starts: a cached tool is projected, and one that is not cached is unavailable under its name. */
  ghost predicate FromCache(rx: Engine, e: Exposure, caches: map<string, Definitions>, state: ToolState) {
    if e.targetId in caches && e.upstreamTool in caches[e.targetId]
    then Projected(rx, e, caches[e.targetId][e.upstreamTool], state)
    else state.Unavailable? && NameOf(state.tool) == Some(e.publicName)
  }

  lemma CachedState(rx: Engine, e: Exposure, caches: map<string, Definitions>)
    ensures FromCache(rx, e, caches,
                      StateFrom(rx, e, Cached(if e.targetId in caches then caches[e.targetId] else map[])))
  {
    hide Projected;
    hide Project;
    if e.targetId in caches && e.upstreamTool in caches[e.targetId] {
      ProjectProjects(rx, e, caches[e.targetId][e.upstreamTool]);
    }
  }

  lemma RefreshTools(rx: Engine, cfg: Config, c: Catalog, targets: set<string>, world: World, force: bool, mark: bool)
    requires c.snapshot.tools.Keys == cfg.exposures.Keys
    ensures var n := Refresh(rx, cfg, c, targets, world, force, mark);
            && n.snapshot.tools == NextTools(rx, cfg, c.snapshot.tools, Found(cfg, c, targets, world, force))
            && n.snapshot.tools.Keys == cfg.exposures.Keys
            && n.listed == (c.listed || mark)
            && n.freshTargets == (c.freshTargets + Found(cfg, c, targets, world, force).Keys)
                                 - Failed(cfg, c, targets, world, force)
  {
    hide StateFrom;
    hide Found;
    hide Failed;
    NextKeys(rx, cfg, c.snapshot.tools, Found(cfg, c, targets, world, force));
  }

  lemma RefreshAt(rx: Engine, cfg: Config, c: Catalog, targets: set<string>, world: World, force: bool, mark: bool,
                  n: string)
    requires cfg.WellFormed() && c.snapshot.tools.Keys == cfg.exposures.Keys && n in cfg.exposures
    ensures var after := Refresh(rx, cfg, c, targets, world, force, mark);
            if cfg.exposures[n].targetId in targets then Refreshed(rx, cfg, cfg.exposures[n], c, after, world, force)
            else Untouched(cfg.exposures[n], c, after)
  {
    hide StateFrom;
    hide Collected;
    hide ListedAs;
    hide Refresh;
    var e := cfg.exposures[n];
    RefreshTools(rx, cfg, c, targets, world, force, mark);
    if Answered(cfg, e.targetId, world) { CollectedAs(rx, e, world(e.targetId).reply.value); }
  }

  /** A list refresh, for every world: each exposure of the configuration is refreshed. */
  lemma ListRefreshes(rx: Engine, cfg: Config, c: Catalog, world: World)
    requires cfg.WellFormed() && c.snapshot.tools.Keys == cfg.exposures.Keys
    ensures AllRefreshed(rx, cfg, c, Refresh(rx, cfg, c, ExposedTargets(cfg), world, false, true), world)
  {
    hide Refresh;
    hide Refreshed;
    RefreshTools(rx, cfg, c, ExposedTargets(cfg), world, false, true);
    forall n | n in cfg.exposures
      ensures Refreshed(rx, cfg, cfg.exposures[n], c, Refresh(rx, cfg, c, ExposedTargets(cfg), world, false, true),
                        world, false)
    {
      RefreshAt(rx, cfg, c, ExposedTargets(cfg), world, false, true, n);
    }
  }

  lemma TargetRefreshes(rx: Engine, cfg: Config, c: Catalog, target: string, world: World, force: bool)
    requires cfg.WellFormed() && c.snapshot.tools.Keys == cfg.exposures.Keys
    ensures OneRefreshed(rx, cfg, target, c, Refresh(rx, cfg, c, {target}, world, force, false), world, force)
  {
    hide Refresh;
    hide Refreshed;
    hide Untouched;
    RefreshTools(rx, cfg, c, {target}, world, force, false);
    forall n | n in cfg.exposures
      ensures var after := Refresh(rx, cfg, c, {target}, world, force, false);
              if cfg.exposures[n].targetId == target
              then Refreshed(rx, cfg, cfg.exposures[n], c, after, world, force)
              else Untouched(cfg.exposures[n], c, after)
    {
      RefreshAt(rx, cfg, c, {target}, world, force, false, n);
    }
  }

  lemma ReplaceOne(rx: Engine, cfg: Config, tools: Tools, found: map<string, Definitions>, target: string,
                   defs: Definitions)
    requires tools.Keys == cfg.exposures.Keys
    ensures ReplaceTarget(rx, cfg, target, defs, NextTools(rx, cfg, tools, found)) ==
            NextTools(rx, cfg, tools, found[target := defs])
  {
    hide StateFrom;
  }

  lemma ReplaceNone(rx: Engine, cfg: Config, tools: Tools)
    requires tools.Keys == cfg.exposures.Keys
    ensures NextTools(rx, cfg, tools, map[]) == tools
  {}

  lemma ReplaceAt(rx: Engine, cfg: Config, target: string, defs: Definitions, tools: Tools)
    requires tools.Keys == cfg.exposures.Keys
    ensures var goal := ReplaceTarget(rx, cfg, target, defs, tools);
            && goal.Keys == tools.Keys
            && forall n :: n in goal ==>
                 goal[n] == if cfg.exposures[n].targetId != target then tools[n]
                            else StateFrom(rx, cfg.exposures[n], Discovered(defs))
  {}

  /** Drops the target's entries and inserts their new projections, one exposure at a time. */
  method ReplaceTargetProjection(rx: Engine, cfg: Config, target: string, defs: Definitions, tools: Tools)
    returns (next: Tools)
    requires tools.Keys == cfg.exposures.Keys
    ensures next == ReplaceTarget(rx, cfg, target, defs, tools)
  {
    hide StateFrom;
    hide ReplaceTarget;
    hide Text.Visited;
    hide Text.Sorted;
    ReplaceAt(rx, cfg, target, defs, tools);
    ghost var goal := ReplaceTarget(rx, cfg, target, defs, tools);
    next := map n | n in tools && cfg.exposures[n].targetId != target :: tools[n];
    var names := Text.Sorted(cfg.exposures.Keys);
    Text.VisitedEnds(cfg.exposures.Keys);
    for i := 0 to |names|
      invariant forall n :: n in next ==> n in goal && next[n] == goal[n]
      invariant forall n ::
                  n in goal && (cfg.exposures[n].targetId != target || n in Text.Visited(cfg.exposures.Keys, i)) ==>
                    n in next
    {
      Text.VisitedStep(cfg.exposures.Keys, i);
      var n := names[i];
      if cfg.exposures[n].targetId == target {
        next := next[n := StateFrom(rx, cfg.exposures[n], Discovered(defs))];
      }
    }
  }

  method DiscoverTarget(cfg: Config, target: string, answer: Answer) returns (r: Option<Definitions>)
    ensures r == if target in cfg.targets && answer.reply.Some? then Some(Collected(answer.reply.value)) else None
  {
    if target !in cfg.targets || answer.reply.None? { return None; }
    var defs, cacheable := CollectTools(answer.reply.value);
    return Some(defs);
  }

  /** The target loop of a refresh, on copies of the tool map and of the fresh set. */
  method DiscoverTargets(rx: Engine, cfg: Config, tools: Tools, freshTargets: set<string>, ghost c: Catalog,
                         targets: set<string>, world: World, force: bool)
    returns (nextTools: Tools, nextFresh: set<string>)
    requires tools == c.snapshot.tools && freshTargets == c.freshTargets && tools.Keys == cfg.exposures.Keys
    ensures nextTools == NextTools(rx, cfg, tools, Found(cfg, c, targets, world, force))
    ensures nextFresh == (freshTargets + Found(cfg, c, targets, world, force).Keys)
                         - Failed(cfg, c, targets, world, force)
  {
    hide StateFrom;
    hide Collected;
    hide NextTools;
    hide ReplaceTarget;
    hide Only;
    hide Text.Visited;
    hide Text.Sorted;
    ghost var found := Found(cfg, c, targets, world, force);
    ghost var failed := Failed(cfg, c, targets, world, force);
    nextTools, nextFresh := tools, freshTargets;
    var order := Text.Sorted(targets);
    Text.VisitedEnds(targets);
    OnlyEnds(found, targets);
    ReplaceNone(rx, cfg, tools);
    for i := 0 to |order|
      invariant nextTools == NextTools(rx, cfg, tools, Only(found, Text.Visited(targets, i)))
      invariant nextFresh == FreshAfter(freshTargets, found.Keys, failed, Text.Visited(targets, i))
    {
      var t := order[i];
      ghost var done := Text.Visited(targets, i);
      Text.VisitedStep(targets, i);
      OnlyStep(found, done, t);
      FreshStep(freshTargets, found.Keys, failed, done, t);
      NextKeys(rx, cfg, tools, Only(found, done));
      if force || t !in freshTargets || !world(t).connected {
        var discovered := DiscoverTarget(cfg, t, world(t));
        if discovered.Some? {
          nextTools := ReplaceTargetProjection(rx, cfg, t, discovered.value, nextTools);
          nextFresh := nextFresh + {t};
          ReplaceOne(rx, cfg, tools, Only(found, done), t, discovered.value);
        } else {
          nextFresh := nextFresh - {t};
        }
      }
    }
  }

  ghost function FreshAfter(freshTargets: set<string>, found: set<string>, failed: set<string>,
                            done: set<string>): set<string>
  {
    (freshTargets + (found * done)) - (failed * done)
  }

  lemma FreshStep(freshTargets: set<string>, found: set<string>, failed: set<string>, done: set<string>, t: string)
    requires t !in done
    ensures t in found && t !in failed ==>
              FreshAfter(freshTargets, found, failed, done + {t}) == FreshAfter(freshTargets, found, failed, done) + {t}
    ensures t in failed ==>
              FreshAfter(freshTargets, found, failed, done + {t}) == FreshAfter(freshTargets, found, failed, done) - {t}
    ensures t !in found && t !in failed ==>
              FreshAfter(freshTargets, found, failed, done + {t}) == FreshAfter(freshTargets, found, failed, done)
  {}

  lemma NextKeys(rx: Engine, cfg: Config, tools: Tools, found: map<string, Definitions>)
    requires tools.Keys == cfg.exposures.Keys
    ensures NextTools(rx, cfg, tools, found).Keys == cfg.exposures.Keys
  {}

  /** The catalog object. Its state is one Catalog value; `sources` records what is behind it. */
  class V3Catalog {
    const rx: Engine
    const cfg: Config
    var snapshot: Snapshot
    var freshTargets: set<string>
    var catalogWasListed: bool
    ghost var sources: map<string, Source>

    ghost function State(): Catalog
      reads this
    {
      Catalog(snapshot, freshTargets, catalogWasListed)
    }

    ghost predicate Valid()
      reads this
    {
      && cfg.WellFormed()
      && Refines(rx, cfg, snapshot.tools, sources)
      && (forall t :: t in freshTargets ==> t in sources && sources[t].Discovered?)
    }

    lemma StateTools()
      requires Valid()
      ensures cfg.WellFormed() && State().snapshot.tools.Keys == cfg.exposures.Keys
    {}

    /** Starts from whatever each target's disk cache holds; nothing is fresh. */
    constructor (rx: Engine, cfg: Config, caches: map<string, Definitions>)
      requires cfg.WellFormed()
      ensures Valid()
      ensures this.rx == rx && this.cfg == cfg
      ensures State() == Catalog(Snapshot(0, snapshot.tools), {}, false)
      ensures sources == map t | t in cfg.targets :: Cached(if t in caches then caches[t] else map[])
      ensures forall n :: n in cfg.exposures ==> FromCache(rx, cfg.exposures[n], caches, snapshot.tools[n])
    {
      hide StateFrom;
      hide FromCache;
      forall n | n in cfg.exposures
        ensures FromCache(rx, cfg.exposures[n], caches,
                          StateFrom(rx, cfg.exposures[n],
                                    Cached(if cfg.exposures[n].targetId in caches
                                           then caches[cfg.exposures[n].targetId] else map[])))
      {
        CachedState(rx, cfg.exposures[n], caches);
      }
      this.rx := rx;
      this.cfg := cfg;
      this.snapshot := Snapshot(0, map n | n in cfg.exposures ::
        StateFrom(rx, cfg.exposures[n],
                  Cached(if cfg.exposures[n].targetId in caches then caches[cfg.exposures[n].targetId] else map[])));
      this.freshTargets := {};
      this.catalogWasListed := false;
      this.sources := map t | t in cfg.targets :: Cached(if t in caches then caches[t] else map[]);
    }

    /** Swaps in the next state; a new generation exactly when the tool map changed. */
    method AdoptSnapshot(tools: Tools, nextFresh: set<string>, markListed: bool) returns (changed: bool)
      modifies this
      ensures State() == Adopt(old(State()), tools, nextFresh, markListed)
      ensures changed <==> tools != old(snapshot.tools)
      ensures sources == old(sources)
    {
      changed := tools != snapshot.tools;
      freshTargets := nextFresh;
      if markListed { catalogWasListed := true; }
      if !changed { return; }
      snapshot := Snapshot(snapshot.generation + 1, tools);
    }

    /** The body shared by the three refreshes: each target in order, then one adoption. */
    method RefreshTargets(targets: set<string>, world: World, force: bool, markListed: bool) returns (changed: bool)
      requires Valid()
      modifies this
      ensures Valid()
      ensures State() == Refresh(rx, cfg, old(State()), targets, world, force, markListed)
      ensures sources == NextSources(old(sources), Found(cfg, old(State()), targets, world, force))
      ensures changed <==> Announces(old(State()), State())
    {
      hide StateFrom;
      hide Collected;
      hide NextTools;
      hide Found;
      hide Failed;
      var wasListed := catalogWasListed;
      ghost var c := State();
      var nextTools, nextFresh := DiscoverTargets(rx, cfg, snapshot.tools, freshTargets, c, targets, world, force);
      var adopted := AdoptSnapshot(nextTools, nextFresh, markListed);
      ghost var found := Found(cfg, c, targets, world, force);
      sources := NextSources(sources, found);
      NextToolsRefines(rx, cfg, c.snapshot.tools, old(sources), found);
      changed := wasListed && adopted;
    }

    /** A list request: every exposed target, and the snapshot the response reports. */
    method RefreshAll(world: World) returns (changed: bool, reported: Snapshot)
      requires Valid()
      modifies this
      ensures Valid()
      ensures State() == Refresh(rx, cfg, old(State()), ExposedTargets(cfg), world, false, true)
      ensures sources == NextSources(old(sources), Found(cfg, old(State()), ExposedTargets(cfg), world, false))
      ensures reported == snapshot && (changed <==> Announces(old(State()), State()))
      ensures AllRefreshed(rx, cfg, old(State()), State(), world)
    {
      hide Refresh;
      hide AllRefreshed;
      hide Refines;
      StateTools();
      ListRefreshes(rx, cfg, State(), world);
      var targets := set n | n in cfg.exposures :: cfg.exposures[n].targetId;
      changed := RefreshTargets(targets, world, false, true);
      reported := snapshot;
    }

    /** A call: one target, and the tool state the call keeps from then on. */
    method RefreshForCall(target: string, name: string, world: World)
      returns (available: bool, changed: bool, toolState: Option<ToolState>)
      requires Valid()
      modifies this
      ensures Valid()
      ensures State() == Refresh(rx, cfg, old(State()), {target}, world, false, false)
      ensures sources == NextSources(old(sources), Found(cfg, old(State()), {target}, world, false))
      ensures changed <==> Announces(old(State()), State())
      ensures available <==> target !in Failed(cfg, old(State()), {target}, world, false)
      ensures toolState == if name in snapshot.tools then Some(snapshot.tools[name]) else None
      ensures available ==> target in sources && sources[target].Discovered?
      ensures OneRefreshed(rx, cfg, target, old(State()), State(), world, false)
      ensures available <==> !Asked(old(State()), target, world, false) || Answered(cfg, target, world)
    {
      hide NextTools;
      hide StateFrom;
      hide Collected;
      hide OneRefreshed;
      StateTools();
      TargetRefreshes(rx, cfg, State(), target, world, false);
      available := (target in freshTargets && world(target).connected)
                   || (target in cfg.targets && world(target).reply.Some?);
      changed := RefreshTargets({target}, world, false, false);
      toolState := if name in snapshot.tools then Some(snapshot.tools[name]) else None;
    }

    method RefreshAfterNotification(target: string, world: World) returns (available: bool, changed: bool)
      requires Valid()
      modifies this
      ensures Valid()
      ensures State() == Refresh(rx, cfg, old(State()), {target}, world, true, false)
      ensures sources == NextSources(old(sources), Found(cfg, old(State()), {target}, world, true))
      ensures changed <==> Announces(old(State()), State())
      ensures available <==> target !in Failed(cfg, old(State()), {target}, world, true)
      ensures OneRefreshed(rx, cfg, target, old(State()), State(), world, true)
      ensures available <==> Answered(cfg, target, world)
    {
      hide NextTools;
      hide StateFrom;
      hide Collected;
      hide OneRefreshed;
      StateTools();
      TargetRefreshes(rx, cfg, State(), target, world, true);
      available := target in cfg.targets && world(target).reply.Some?;
      changed := RefreshTargets({target}, world, true, false);
    }
  }
}
