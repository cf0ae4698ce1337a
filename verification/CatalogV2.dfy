/** The version-2 catalog: restricted definitions frozen through a durable store. */
module CatalogV2 {
  import opened Json
  import opened Schemas
  import opened CompatibilityV2
  import opened ProjectionV2
  import opened PublicRoot
  import Text

  datatype Entry = Entry(upstream: Value, public: Value)

  /** One target's cached tools, by upstream name. */
  type Entries = map<string, Entry>

  datatype Config = Config(exposures: map<string, Exposure>, targets: set<string>) {
    /** What configuration validation establishes: one exposure per public name and per upstream tool. */
    ghost predicate WellFormed() {
      && (forall n :: n in exposures ==> exposures[n].publicName == n && exposures[n].targetId in targets)
      && (forall m, n :: m in exposures && n in exposures && SameTool(exposures[m], exposures[n]) ==> m == n)
    }

    static predicate SameTool(a: Exposure, b: Exposure) {
      a.targetId == b.targetId && a.upstreamTool == b.upstreamTool
    }

    function NamesOf(target: string): set<string> {
      set n | n in exposures && exposures[n].targetId == target
    }
  }

  datatype State = State(
    active: map<string, Value>,
    cached: map<string, Entries>,
    changed: map<string, string>,
    unavailable: set<string>)

  type Disk = map<string, Entries>

  const NOT_LISTED: string := "upstream tool is no longer listed"
  const INVALID: string := "upstream tool definition is invalid"
  const INCOMPATIBLE: string := "restricted arguments are incompatible with upstream definition"
  const UNDERIVABLE: string := "restricted definition cannot be derived"

  // One exposure against one listing.

  /** The definition to publish and whether it is a first freeze, or the reason there is none. */
  function ProjectedTool(rx: Engine, e: Exposure, upstream: Value,
                         previous: Option<Entry>): Result<(Value, bool), string>
  {
    match e.mode
    case Proxy =>
      if upstream.Obj? then Ok((Obj(upstream.fields["name" := Str(e.publicName)]), false)) else Err(INVALID)
    case Restricted(_, _) =>
      if previous.Some? then
        if Compatible(rx, e, upstream) then Ok((previous.value.public, false)) else Err(INCOMPATIBLE)
      else
        var public := Derive(rx, e, upstream);
        if public.Some? then Ok((public.value, true)) else Err(UNDERIVABLE)
  }

  /** What a refresh has built so far for its target. */
  datatype Draft = Draft(cached: Entries, active: map<string, Value>, tombstones: map<string, string>,
                         freezes: set<string>)

  function Bury(d: Draft, previous: Entries, e: Exposure, reason: string): Draft {
    if e.upstreamTool in previous then d.(tombstones := d.tombstones[e.publicName := reason]) else d
  }

  function Publish(d: Draft, e: Exposure, observed: Value, public: Value, isNew: bool): Draft {
    Draft(d.cached[e.upstreamTool := Entry(observed, public)], d.active[e.publicName := public], d.tombstones,
          if isNew then d.freezes + {e.publicName} else d.freezes)
  }

  function DraftOne(rx: Engine, d: Draft, previous: Entries, discovered: map<string, Value>, e: Exposure): Draft {
    if e.upstreamTool !in discovered then Bury(d, previous, e, NOT_LISTED)
    else
      var observed := discovered[e.upstreamTool];
      match ProjectedTool(rx, e, observed, Get(previous, e.upstreamTool))
      case Ok((public, isNew)) =>
        Publish(d, e, observed, public, isNew)
      case Err(reason) => Bury(d, previous, e, reason)
  }

  function DraftAll(rx: Engine, cfg: Config, previous: Entries, discovered: map<string, Value>,
                    names: seq<string>): Draft
  {
    if names == [] then Draft(previous, map[], map[], {})
    else
      var d := DraftAll(rx, cfg, previous, discovered, names[..|names| - 1]);
      var n := names[|names| - 1];
      if n in cfg.exposures then DraftOne(rx, d, previous, discovered, cfg.exposures[n]) else d
  }

  function DraftFor(rx: Engine, cfg: Config, previous: Entries, discovered: map<string, Value>, target: string): Draft {
    DraftAll(rx, cfg, previous, discovered, Text.Sorted(cfg.NamesOf(target)))
  }

  /** Without a durable copy a first freeze is withdrawn. */
  function Withdraw(cfg: Config, d: Draft): Draft {
    d.(cached := d.cached - (set n | n in d.freezes && n in cfg.exposures :: cfg.exposures[n].upstreamTool),
       active := d.active - d.freezes)
  }

  // A refresh.

  /** A listing by name; None when a tool has no name or a name repeats. */
  function ReadListing(tools: seq<Value>): Option<map<string, Value>> {
    if tools == [] then Some(map[])
    else
      var front := ReadListing(tools[..|tools| - 1]);
      var name := NameOf(tools[|tools| - 1]);
      if front.None? || name.None? || name.value in front.value then None
      else Some(front.value[name.value := tools[|tools| - 1]])
  }

  function OfOthers<T>(cfg: Config, m: map<string, T>, target: string): map<string, T> {
    map n | n in m && (n in cfg.exposures ==> cfg.exposures[n].targetId != target) :: m[n]
  }

  predicate HadCatalog(cfg: Config, s: State, target: string) {
    target in s.cached || exists n :: n in s.active && n in cfg.exposures && cfg.exposures[n].targetId == target
  }

  function Install(cfg: Config, s: State, target: string, d: Draft): State {
    State(OfOthers(cfg, s.active, target) + d.active, s.cached[target := d.cached],
          OfOthers(cfg, s.changed, target) + d.tombstones, s.unavailable - {target})
  }

  /** The state, the durable copy and the answer after a listing of one target. */
  function Listed(rx: Engine, cfg: Config, hasCache: bool, s: State, disk: Disk, target: string,
                  discovered: map<string, Value>, storeOk: bool)
    : (State, Disk, bool)
  {
    var previous := if target in s.cached then s.cached[target] else map[];
    var draft := DraftFor(rx, cfg, previous, discovered, target);
    var stores := draft.cached != previous;
    var stored := stores && hasCache && storeOk;
    var final := if stores && !stored then Withdraw(cfg, draft) else draft;
    var next := Install(cfg, s, target, final);
    (next, if stored then disk[target := draft.cached] else disk,
     target in s.unavailable || (HadCatalog(cfg, s, target) && next.active != s.active))
  }

  /** The state, the durable copy and the answer after one refresh of one target. */
  function Refresh(rx: Engine, cfg: Config, hasCache: bool, s: State, disk: Disk, target: string,
                   reply: Option<seq<Value>>, storeOk: bool)
    : (State, Disk, bool)
  {
    if target !in cfg.targets then (s, disk, false)
    else if reply.None? then (s.(unavailable := s.unavailable + {target}), disk, false)
    else if ReadListing(reply.value).None? then (s, disk, false)
    else Listed(rx, cfg, hasCache, s, disk, target, ReadListing(reply.value).value, storeOk)
  }

  // What a draft contains.

  ghost predicate ActiveOk(previous: Entries, d: Draft, e: Exposure) {
    e.publicName in d.active ==>
      && e.upstreamTool in d.cached && d.cached[e.upstreamTool].public == d.active[e.publicName]
      && (e.publicName in d.freezes <==> e.mode.Restricted? && e.upstreamTool !in previous)
      && (e.mode.Restricted? && e.upstreamTool in previous ==>
            d.active[e.publicName] == previous[e.upstreamTool].public)
  }

  ghost predicate Exposes(cfg: Config, active: map<string, Value>, u: string) {
    exists n :: n in active && n in cfg.exposures && cfg.exposures[n].upstreamTool == u
  }

  ghost predicate CachedOk(cfg: Config, previous: Entries, d: Draft, u: string) {
    u in d.cached ==> (u in previous && d.cached[u] == previous[u]) || Exposes(cfg, d.active, u)
  }

  /** The draft of the exposures in `names`: fates are disjoint, and a frozen public is never rewritten. */
  ghost predicate DraftOk(cfg: Config, previous: Entries, names: set<string>, d: Draft) {
    && d.active.Keys <= names && d.tombstones.Keys <= names && d.active.Keys !! d.tombstones.Keys
    && d.freezes <= d.active.Keys
    && previous.Keys <= d.cached.Keys
    && (forall n :: n in cfg.exposures ==> ActiveOk(previous, d, cfg.exposures[n]))
    && (forall u :: CachedOk(cfg, previous, d, u))
  }

  lemma BuryStep(cfg: Config, target: string, previous: Entries, names: set<string>, d: Draft, n: string,
                 reason: string)
    requires cfg.WellFormed() && n in cfg.NamesOf(target) && n !in names && DraftOk(cfg, previous, names, d)
    ensures DraftOk(cfg, previous, names + {n}, Bury(d, previous, cfg.exposures[n], reason))
  {
    var r := Bury(d, previous, cfg.exposures[n], reason);
    hide Exposes;
    forall m | m in cfg.exposures ensures ActiveOk(previous, r, cfg.exposures[m]) {
      assert ActiveOk(previous, d, cfg.exposures[m]);
    }
    forall u ensures CachedOk(cfg, previous, r, u) { assert CachedOk(cfg, previous, d, u); }
  }

  lemma PublishStep(cfg: Config, target: string, previous: Entries, names: set<string>, d: Draft, n: string,
                    observed: Value, public: Value, isNew: bool)
    requires cfg.WellFormed() && names <= cfg.NamesOf(target) && n in cfg.NamesOf(target) && n !in names
    requires DraftOk(cfg, previous, names, d)
    requires var e := cfg.exposures[n];
             && (isNew <==> e.mode.Restricted? && e.upstreamTool !in previous)
             && (e.mode.Restricted? && e.upstreamTool in previous ==> public == previous[e.upstreamTool].public)
    ensures DraftOk(cfg, previous, names + {n}, Publish(d, cfg.exposures[n], observed, public, isNew))
  {
    hide Exposes;
    hide ActiveOk;
    hide CachedOk;
    var e := cfg.exposures[n];
    var r := Publish(d, e, observed, public, isNew);
    forall m | m in cfg.exposures ensures ActiveOk(previous, r, cfg.exposures[m]) {
      assert ActiveOk(previous, d, cfg.exposures[m]);
      if m != n && m in d.active { assert m in cfg.NamesOf(target) && cfg.exposures[m].upstreamTool != e.upstreamTool; }
      PublishActive(previous, d, e, observed, public, isNew, cfg.exposures[m]);
    }
    ExposesMore(cfg, d.active, n, public);
    forall u ensures CachedOk(cfg, previous, r, u) {
      assert CachedOk(cfg, previous, d, u);
      PublishCached(cfg, previous, d, e, observed, public, isNew, u);
    }
  }

  lemma PublishActive(previous: Entries, d: Draft, e: Exposure, observed: Value, public: Value, isNew: bool,
                      other: Exposure)
    requires ActiveOk(previous, d, other) && e.publicName !in d.active && d.freezes <= d.active.Keys
    requires isNew <==> e.mode.Restricted? && e.upstreamTool !in previous
    requires e.mode.Restricted? && e.upstreamTool in previous ==> public == previous[e.upstreamTool].public
    requires other.publicName == e.publicName ==> other == e
    requires other != e && other.publicName in d.active ==> other.upstreamTool != e.upstreamTool
    ensures ActiveOk(previous, Publish(d, e, observed, public, isNew), other)
  {}

  lemma PublishCached(cfg: Config, previous: Entries, d: Draft, e: Exposure, observed: Value, public: Value,
                      isNew: bool, u: string)
    requires CachedOk(cfg, previous, d, u)
    requires Exposes(cfg, d.active[e.publicName := public], e.upstreamTool)
    requires Exposes(cfg, d.active, u) ==> Exposes(cfg, d.active[e.publicName := public], u)
    ensures CachedOk(cfg, previous, Publish(d, e, observed, public, isNew), u)
  {
    hide Exposes;
  }

  lemma ExposesMore(cfg: Config, active: map<string, Value>, n: string, public: Value)
    requires n in cfg.exposures
    ensures Exposes(cfg, active[n := public], cfg.exposures[n].upstreamTool)
    ensures forall u :: Exposes(cfg, active, u) ==> Exposes(cfg, active[n := public], u)
  {
    forall u | Exposes(cfg, active, u) ensures Exposes(cfg, active[n := public], u) {
      var m :| m in active && m in cfg.exposures && cfg.exposures[m].upstreamTool == u;
      assert m in active[n := public];
    }
    assert n in active[n := public];
  }

  lemma DraftStep(rx: Engine, cfg: Config, target: string, previous: Entries, discovered: map<string, Value>,
                  names: set<string>, d: Draft, n: string)
    requires cfg.WellFormed() && names <= cfg.NamesOf(target) && n in cfg.NamesOf(target) && n !in names
    requires DraftOk(cfg, previous, names, d)
    ensures DraftOk(cfg, previous, names + {n}, DraftOne(rx, d, previous, discovered, cfg.exposures[n]))
  {
    hide Compatible;
    hide Derive;
    hide DraftOk;
    hide Bury;
    var e := cfg.exposures[n];
    if e.upstreamTool !in discovered {
      BuryStep(cfg, target, previous, names, d, n, NOT_LISTED);
    } else {
      match ProjectedTool(rx, e, discovered[e.upstreamTool], Get(previous, e.upstreamTool)) {
        case Ok((public, isNew)) =>
          PublishStep(cfg, target, previous, names, d, n, discovered[e.upstreamTool], public, isNew);
        case Err(reason) => BuryStep(cfg, target, previous, names, d, n, reason);
      }
    }
  }

  lemma {:induction false} DraftPrefix(rx: Engine, cfg: Config, target: string, previous: Entries,
                                       discovered: map<string, Value>, i: nat)
    requires cfg.WellFormed() && i <= |cfg.NamesOf(target)|
    ensures DraftOk(cfg, previous, Text.Visited(cfg.NamesOf(target), i),
                    DraftAll(rx, cfg, previous, discovered, Text.Sorted(cfg.NamesOf(target))[..i]))
  {
    hide DraftOk;
    hide DraftAll;
    hide DraftOne;
    hide Text.Visited;
    hide Text.Sorted;
    var all := cfg.NamesOf(target);
    var names := Text.Sorted(all);
    Text.VisitedEnds(all);
    if i == 0 {
      DraftNothing(cfg, previous);
      DraftAllStep(rx, cfg, previous, discovered, names[..0]);
    } else {
      DraftPrefix(rx, cfg, target, previous, discovered, i - 1);
      Text.VisitedStep(all, i - 1);
      VisitedWithin(all, i - 1);
      assert names[..i][..i - 1] == names[..i - 1] && names[..i][i - 1] == names[i - 1];
      DraftAllStep(rx, cfg, previous, discovered, names[..i]);
      DraftStep(rx, cfg, target, previous, discovered, Text.Visited(all, i - 1),
                DraftAll(rx, cfg, previous, discovered, names[..i - 1]), names[i - 1]);
    }
  }

  lemma DraftAllStep(rx: Engine, cfg: Config, previous: Entries, discovered: map<string, Value>, names: seq<string>)
    ensures DraftAll(rx, cfg, previous, discovered, names) ==
            if names == [] then Draft(previous, map[], map[], {})
            else
              var d := DraftAll(rx, cfg, previous, discovered, names[..|names| - 1]);
              var n := names[|names| - 1];
              if n in cfg.exposures then DraftOne(rx, d, previous, discovered, cfg.exposures[n]) else d
  {}

  lemma VisitedWithin(s: set<string>, i: nat)
    requires i <= |s|
    ensures Text.Visited(s, i) <= s
  {
    hide Text.Sorted;
    forall k | k in Text.Visited(s, i) ensures k in s { assert k in Text.Sorted(s); }
  }

  lemma DraftNothing(cfg: Config, previous: Entries)
    ensures DraftOk(cfg, previous, {}, Draft(previous, map[], map[], {}))
  {}

  lemma DraftForOk(rx: Engine, cfg: Config, target: string, previous: Entries, discovered: map<string, Value>)
    requires cfg.WellFormed()
    ensures DraftOk(cfg, previous, cfg.NamesOf(target), DraftFor(rx, cfg, previous, discovered, target))
  {
    hide DraftOk;
    hide DraftAll;
    hide Text.Sorted;
    hide Text.Visited;
    var all := cfg.NamesOf(target);
    DraftPrefix(rx, cfg, target, previous, discovered, |all|);
    Text.VisitedEnds(all);
    assert Text.Sorted(all)[..|all|] == Text.Sorted(all);
  }

  // What a refresh does to each exposure of its target.

  /** Every tool of the listing has a name, and no two have the same. */
  ghost predicate WellNamed(tools: seq<Value>) {
    && (forall i :: 0 <= i < |tools| ==> NameOf(tools[i]).Some?)
    && (forall i, j :: 0 <= i < j < |tools| ==> NameOf(tools[i]) != NameOf(tools[j]))
  }

  ghost predicate IsListed(tools: seq<Value>, u: string) {
    exists i :: 0 <= i < |tools| && NameOf(tools[i]) == Some(u)
  }

  lemma IsListedMore(front: seq<Value>, last: Value, u: string)
    ensures IsListed(front + [last], u) <==> IsListed(front, u) || NameOf(last) == Some(u)
  {
    hide NameOf;
    var tools := front + [last];
    if IsListed(front, u) {
      var i :| 0 <= i < |front| && NameOf(front[i]) == Some(u);
      assert tools[i] == front[i];
    }
    if NameOf(last) == Some(u) { assert tools[|front|] == last; }
  }

  lemma WellNamedMore(front: seq<Value>, last: Value)
    ensures WellNamed(front + [last]) <==>
            WellNamed(front) && NameOf(last).Some? && !IsListed(front, NameOf(last).value)
  {
    hide NameOf;
    var tools := front + [last];
    assert tools[|front|] == last;
    assert forall i :: 0 <= i < |front| ==> tools[i] == front[i];
  }

  /** A listing is read when it is well named, and then has each listed name with its tool. */
  lemma {:induction false} ListingMeans(tools: seq<Value>)
    ensures ReadListing(tools).Some? <==> WellNamed(tools)
    ensures ReadListing(tools).Some? ==>
              && (forall i :: 0 <= i < |tools| ==>
                    Get(ReadListing(tools).value, NameOf(tools[i]).value) == Some(tools[i]))
              && (forall u :: u in ReadListing(tools).value <==> IsListed(tools, u))
  {
    hide NameOf;
    hide IsListed;
    if tools != [] {
      var front, last := tools[..|tools| - 1], tools[|tools| - 1];
      assert tools == front + [last];
      ListingMeans(front);
      WellNamedMore(front, last);
      forall u ensures IsListed(tools, u) <==> IsListed(front, u) || NameOf(last) == Some(u) {
        IsListedMore(front, last, u);
      }
    } else {
      NoneListed();
    }
  }

  lemma NoneListed()
    ensures forall u :: !IsListed([], u)
  {}

  /** The public definition an exposure is to have after a listing, or the reason it is to have none. */
  function Verdict(rx: Engine, e: Exposure, previous: Entries, discovered: map<string, Value>): Result<Value, string> {
    if e.upstreamTool !in discovered then Err(NOT_LISTED)
    else
      match ProjectedTool(rx, e, discovered[e.upstreamTool], Get(previous, e.upstreamTool))
      case Ok((public, isNew)) => Ok(public)
      case Err(reason) => Err(reason)
  }

  /** A draft holds an exposure's verdict, cached with the tool it saw; a reason is kept for what was cached before. */
  ghost predicate DraftHolds(d: Draft, e: Exposure, previous: Entries, discovered: map<string, Value>,
                             verdict: Result<Value, string>)
  {
    && (e.publicName in d.active <==> verdict.Ok?)
    && (verdict.Ok? ==>
          && d.active[e.publicName] == verdict.value && e.publicName !in d.tombstones
          && e.upstreamTool in discovered
          && Get(d.cached, e.upstreamTool) == Some(Entry(discovered[e.upstreamTool], verdict.value)))
    && (e.publicName in d.tombstones <==> verdict.Err? && e.upstreamTool in previous)
    && (e.publicName in d.tombstones ==> d.tombstones[e.publicName] == verdict.error)
  }

  lemma DraftOneHolds(rx: Engine, d: Draft, previous: Entries, discovered: map<string, Value>, e: Exposure)
    requires e.publicName !in d.active && e.publicName !in d.tombstones
    ensures DraftHolds(DraftOne(rx, d, previous, discovered, e), e, previous, discovered,
                       Verdict(rx, e, previous, discovered))
  {
    hide ProjectedTool;
  }

  lemma DraftOneOthers(rx: Engine, d: Draft, previous: Entries, discovered: map<string, Value>, e: Exposure,
                       other: Exposure, verdict: Result<Value, string>)
    requires other.publicName != e.publicName && other.upstreamTool != e.upstreamTool
    requires DraftHolds(d, other, previous, discovered, verdict)
    ensures DraftHolds(DraftOne(rx, d, previous, discovered, e), other, previous, discovered, verdict)
  {
    hide ProjectedTool;
  }

  lemma {:induction false} DraftFates(rx: Engine, cfg: Config, target: string, previous: Entries,
                                      discovered: map<string, Value>, i: nat, n: string)
    requires cfg.WellFormed() && i <= |cfg.NamesOf(target)| && n in Text.Visited(cfg.NamesOf(target), i)
    ensures n in cfg.exposures
    ensures DraftHolds(DraftAll(rx, cfg, previous, discovered, Text.Sorted(cfg.NamesOf(target))[..i]), cfg.exposures[n],
                       previous, discovered, Verdict(rx, cfg.exposures[n], previous, discovered))
  {
    hide DraftOk;
    hide DraftAll;
    hide DraftOne;
    hide DraftHolds;
    hide Verdict;
    hide Text.Visited;
    hide Text.Sorted;
    var all := cfg.NamesOf(target);
    var names := Text.Sorted(all);
    Text.VisitedEnds(all);
    VisitedWithin(all, i);
    if i > 0 {
      Text.VisitedStep(all, i - 1);
      VisitedWithin(all, i - 1);
      assert names[..i][..i - 1] == names[..i - 1] && names[..i][i - 1] == names[i - 1];
      DraftAllStep(rx, cfg, previous, discovered, names[..i]);
      var d, m := DraftAll(rx, cfg, previous, discovered, names[..i - 1]), names[i - 1];
      if n == m {
        DraftPrefix(rx, cfg, target, previous, discovered, i - 1);
        DraftWithin(cfg, previous, Text.Visited(all, i - 1), d);
        DraftOneHolds(rx, d, previous, discovered, cfg.exposures[n]);
      } else {
        DraftFates(rx, cfg, target, previous, discovered, i - 1, n);
        DraftOneOthers(rx, d, previous, discovered, cfg.exposures[m], cfg.exposures[n],
                       Verdict(rx, cfg.exposures[n], previous, discovered));
      }
    }
  }

  lemma DraftWithin(cfg: Config, previous: Entries, names: set<string>, d: Draft)
    requires DraftOk(cfg, previous, names, d)
    ensures d.active.Keys <= names && d.tombstones.Keys <= names
  {}

  lemma DraftForHolds(rx: Engine, cfg: Config, target: string, previous: Entries, discovered: map<string, Value>,
                      n: string)
    requires cfg.WellFormed() && n in cfg.NamesOf(target)
    ensures DraftHolds(DraftFor(rx, cfg, previous, discovered, target), cfg.exposures[n], previous, discovered,
                       Verdict(rx, cfg.exposures[n], previous, discovered))
  {
    hide DraftAll;
    hide DraftHolds;
    hide Verdict;
    hide Text.Sorted;
    hide Text.Visited;
    var all := cfg.NamesOf(target);
    Text.VisitedEnds(all);
    assert Text.Sorted(all)[..|all|] == Text.Sorted(all);
    DraftFates(rx, cfg, target, previous, discovered, |all|, n);
  }

  /** Withdrawing first freezes leaves nothing restricted that the previous cache did not hold. */
  lemma WithdrawOk(cfg: Config, target: string, previous: Entries, d: Draft)
    requires cfg.WellFormed() && DraftOk(cfg, previous, cfg.NamesOf(target), d)
    ensures var w := Withdraw(cfg, d);
            && w.active.Keys <= cfg.NamesOf(target) && w.tombstones == d.tombstones
            && w.active.Keys !! w.tombstones.Keys
            && previous.Keys <= w.cached.Keys
            && (forall n :: n in cfg.NamesOf(target) ==>
                  StillFrozen(previous, w, cfg.exposures[n]) && NothingNew(previous, w, cfg.exposures[n]))
  {
    var w := Withdraw(cfg, d);
    forall n | n in d.freezes && n in cfg.exposures ensures cfg.exposures[n].upstreamTool !in previous {
      assert ActiveOk(previous, d, cfg.exposures[n]);
    }
    forall n | n in cfg.NamesOf(target)
      ensures StillFrozen(previous, w, cfg.exposures[n]) && NothingNew(previous, w, cfg.exposures[n])
    {
      var e := cfg.exposures[n];
      assert ActiveOk(previous, d, e) && CachedOk(cfg, previous, d, e.upstreamTool);
      forall m | m in d.active && m in cfg.exposures && cfg.exposures[m].upstreamTool == e.upstreamTool ensures m == n {
        assert m in cfg.NamesOf(target);
      }
    }
  }

  /** One exposure of a finished draft: what is active is what is cached, and an old freeze is intact. */
  ghost predicate StillFrozen(previous: Entries, d: Draft, e: Exposure) {
    && (e.publicName in d.active ==>
          e.upstreamTool in d.cached && d.cached[e.upstreamTool].public == d.active[e.publicName])
    && (e.mode.Restricted? && e.upstreamTool in previous ==>
          e.upstreamTool in d.cached && d.cached[e.upstreamTool].public == previous[e.upstreamTool].public)
  }

  /** The draft holds no restricted definition that the previous cache did not. */
  ghost predicate NothingNew(previous: Entries, d: Draft, e: Exposure) {
    e.mode.Restricted? && e.upstreamTool in d.cached ==>
      e.upstreamTool in previous && d.cached[e.upstreamTool].public == previous[e.upstreamTool].public
  }

  lemma DraftStillFrozen(cfg: Config, target: string, previous: Entries, d: Draft, n: string)
    requires cfg.WellFormed() && DraftOk(cfg, previous, cfg.NamesOf(target), d) && n in cfg.NamesOf(target)
    ensures StillFrozen(previous, d, cfg.exposures[n])
  {
    var e := cfg.exposures[n];
    assert ActiveOk(previous, d, e) && CachedOk(cfg, previous, d, e.upstreamTool);
    forall m | m in d.active && m in cfg.exposures && cfg.exposures[m].upstreamTool == e.upstreamTool ensures m == n {
      assert m in cfg.NamesOf(target);
    }
  }

  // The freeze protocol over whole runs.

  /** The name under which a cached definition of a restricted exposure is held. */
  ghost predicate Holds(store: map<string, Entries>, e: Exposure) {
    e.targetId in store && e.upstreamTool in store[e.targetId]
  }

  ghost function PublicIn(store: map<string, Entries>, e: Exposure): Value
    requires Holds(store, e)
  {
    store[e.targetId][e.upstreamTool].public
  }

  /** One exposure: what is active is what is cached, and a frozen definition is durable. */
  ghost predicate ExposureOk(s: State, disk: Disk, e: Exposure) {
    && (e.mode.Restricted? && Holds(s.cached, e) ==> Holds(disk, e) && PublicIn(disk, e) == PublicIn(s.cached, e))
    && (e.publicName in s.active ==> Holds(s.cached, e) && PublicIn(s.cached, e) == s.active[e.publicName])
  }

  ghost predicate Inv(cfg: Config, s: State, disk: Disk) {
    && s.active.Keys !! s.changed.Keys
    && s.active.Keys <= cfg.exposures.Keys && s.changed.Keys <= cfg.exposures.Keys
    && (forall n :: n in cfg.exposures ==> ExposureOk(s, disk, cfg.exposures[n]))
  }

  /** The draft that is installed, and whether it was stored. */
  ghost predicate FinalOk(cfg: Config, target: string, previous: Entries, d: Draft, stored: bool) {
    && d.active.Keys <= cfg.NamesOf(target) && d.tombstones.Keys <= cfg.NamesOf(target)
    && d.active.Keys !! d.tombstones.Keys
    && (forall n :: n in cfg.NamesOf(target) ==>
          && StillFrozen(previous, d, cfg.exposures[n])
          && (!stored ==> NothingNew(previous, d, cfg.exposures[n])))
  }

  lemma FinalDraft(rx: Engine, cfg: Config, target: string, previous: Entries, discovered: map<string, Value>,
                   stored: bool)
    requires cfg.WellFormed()
    ensures var draft := DraftFor(rx, cfg, previous, discovered, target);
            FinalOk(cfg, target, previous,
                    if draft.cached != previous && !stored then Withdraw(cfg, draft) else draft, stored)
  {
    hide DraftFor;
    hide Withdraw;
    var draft := DraftFor(rx, cfg, previous, discovered, target);
    DraftForOk(rx, cfg, target, previous, discovered);
    forall n | n in cfg.NamesOf(target) ensures StillFrozen(previous, draft, cfg.exposures[n]) {
      DraftStillFrozen(cfg, target, previous, draft, n);
    }
    WithdrawOk(cfg, target, previous, draft);
  }

  lemma InstallOk(cfg: Config, s: State, disk: Disk, target: string, previous: Entries, d: Draft, stored: bool,
                  n: string)
    requires cfg.WellFormed() && Inv(cfg, s, disk) && n in cfg.exposures
    requires previous == if target in s.cached then s.cached[target] else map[]
    requires FinalOk(cfg, target, previous, d, stored)
    ensures var e := cfg.exposures[n];
            var next := Install(cfg, s, target, d);
            var nextDisk := if stored then disk[target := d.cached] else disk;
            && ExposureOk(next, nextDisk, e)
            && (e.mode.Restricted? && Holds(s.cached, e) ==>
                  Holds(next.cached, e) && PublicIn(next.cached, e) == PublicIn(s.cached, e))
            && (e.mode.Restricted? && Holds(next.cached, e) && !Holds(s.cached, e) ==> stored && e.targetId == target)
  {
    hide Inv;
    hide FinalOk;
    InvAt(cfg, s, disk, n);
    if cfg.exposures[n].targetId == target {
      FinalAt(cfg, target, previous, d, stored, n);
      InstallOwn(cfg, s, disk, target, previous, d, stored, n);
    } else {
      InstallOther(cfg, s, disk, target, previous, d, stored, n);
    }
  }

  lemma InvAt(cfg: Config, s: State, disk: Disk, n: string)
    requires Inv(cfg, s, disk) && n in cfg.exposures
    ensures ExposureOk(s, disk, cfg.exposures[n])
  {}

  lemma FinalAt(cfg: Config, target: string, previous: Entries, d: Draft, stored: bool, n: string)
    requires FinalOk(cfg, target, previous, d, stored) && n in cfg.NamesOf(target)
    ensures StillFrozen(previous, d, cfg.exposures[n]) && (!stored ==> NothingNew(previous, d, cfg.exposures[n]))
  {}

  lemma InstallOwn(cfg: Config, s: State, disk: Disk, target: string, previous: Entries, d: Draft, stored: bool,
                   n: string)
    requires n in cfg.exposures && cfg.exposures[n].targetId == target && cfg.exposures[n].publicName == n
    requires previous == if target in s.cached then s.cached[target] else map[]
    requires StillFrozen(previous, d, cfg.exposures[n]) && (!stored ==> NothingNew(previous, d, cfg.exposures[n]))
    requires ExposureOk(s, disk, cfg.exposures[n])
    ensures var e := cfg.exposures[n];
            var next := Install(cfg, s, target, d);
            && ExposureOk(next, if stored then disk[target := d.cached] else disk, e)
            && (e.mode.Restricted? && Holds(s.cached, e) ==>
                  Holds(next.cached, e) && PublicIn(next.cached, e) == PublicIn(s.cached, e))
            && (e.mode.Restricted? && Holds(next.cached, e) && !Holds(s.cached, e) ==> stored)
  {}

  lemma InstallOther(cfg: Config, s: State, disk: Disk, target: string, previous: Entries, d: Draft, stored: bool,
                     n: string)
    requires n in cfg.exposures && cfg.exposures[n].targetId != target && cfg.exposures[n].publicName == n
    requires FinalOk(cfg, target, previous, d, stored) && ExposureOk(s, disk, cfg.exposures[n])
    ensures var e := cfg.exposures[n];
            var next := Install(cfg, s, target, d);
            && ExposureOk(next, if stored then disk[target := d.cached] else disk, e)
            && (Holds(next.cached, e) <==> Holds(s.cached, e))
            && (Holds(s.cached, e) ==> PublicIn(next.cached, e) == PublicIn(s.cached, e))
  {
    hide StillFrozen;
    hide NothingNew;
  }

  lemma InstallDisjoint(cfg: Config, s: State, disk: Disk, target: string, previous: Entries, d: Draft, stored: bool)
    requires Inv(cfg, s, disk) && FinalOk(cfg, target, previous, d, stored)
    ensures var next := Install(cfg, s, target, d);
            && next.active.Keys !! next.changed.Keys
            && next.active.Keys <= cfg.exposures.Keys && next.changed.Keys <= cfg.exposures.Keys
  {
    hide StillFrozen;
    hide ExposureOk;
  }

  /** A refresh keeps the invariant, keeps every freeze, and freezes anew only what it stored. */
  lemma RefreshKeeps(rx: Engine, cfg: Config, hasCache: bool, s: State, disk: Disk, target: string,
                     reply: Option<seq<Value>>, storeOk: bool)
    requires cfg.WellFormed() && Inv(cfg, s, disk)
    ensures var (next, nextDisk, _) := Refresh(rx, cfg, hasCache, s, disk, target, reply, storeOk);
            && Inv(cfg, next, nextDisk)
            && (forall n :: n in cfg.exposures && cfg.exposures[n].mode.Restricted? ==>
                  FreezeStep(s, next, cfg.exposures[n], target, hasCache && storeOk && reply.Some?))
  {
    hide DraftFor;
    hide Withdraw;
    hide ReadListing;
    hide Install;
    hide FinalOk;
    hide ExposureOk;
    hide HadCatalog;
    var (next, nextDisk, told) := Refresh(rx, cfg, hasCache, s, disk, target, reply, storeOk);
    if target in cfg.targets && reply.Some? && ReadListing(reply.value).Some? {
      var previous := if target in s.cached then s.cached[target] else map[];
      var discovered := ReadListing(reply.value).value;
      var draft := DraftFor(rx, cfg, previous, discovered, target);
      var stored := draft.cached != previous && hasCache && storeOk;
      var final := if draft.cached != previous && !stored then Withdraw(cfg, draft) else draft;
      FinalDraft(rx, cfg, target, previous, discovered, stored);
      assert next == Install(cfg, s, target, final);
      assert nextDisk == if stored then disk[target := final.cached] else disk;
      InstallDisjoint(cfg, s, disk, target, previous, final, stored);
      forall n | n in cfg.exposures
        ensures ExposureOk(next, nextDisk, cfg.exposures[n])
        ensures cfg.exposures[n].mode.Restricted? ==>
                  FreezeStep(s, next, cfg.exposures[n], target, hasCache && storeOk && reply.Some?)
      {
        InstallOk(cfg, s, disk, target, previous, final, stored, n);
      }
    } else {
      forall n | n in cfg.exposures ensures ExposureOk(next, nextDisk, cfg.exposures[n]) {
        UnavailableOnly(s, disk, next, cfg.exposures[n]);
      }
    }
  }

  ghost predicate FreezeStep(s: State, next: State, e: Exposure, target: string, storable: bool) {
    && (Holds(s.cached, e) ==> Holds(next.cached, e) && PublicIn(next.cached, e) == PublicIn(s.cached, e))
    && (Holds(next.cached, e) && !Holds(s.cached, e) ==> storable && e.targetId == target)
  }

  lemma UnavailableOnly(s: State, disk: Disk, next: State, e: Exposure)
    requires next == s.(unavailable := next.unavailable) && ExposureOk(s, disk, e)
    ensures ExposureOk(next, disk, e)
  {}

  /** The tool is published by this definition, and cached with the upstream tool it stands for. */
  ghost predicate Shows(s: State, e: Exposure, tool: Value, public: Value) {
    && Get(s.active, e.publicName) == Some(public) && e.publicName !in s.changed
    && Holds(s.cached, e) && s.cached[e.targetId][e.upstreamTool] == Entry(tool, public)
  }

  /** The tool is not published; with a reason it is reported as changed. */
  ghost predicate Gone(s: State, n: string, reason: Option<string>) {
    n !in s.active && Get(s.changed, n) == reason
  }

  /**
   * What a refresh makes of one exposure of its target, from the tools that were listed. A frozen
   * restriction stays active exactly when it is listed and its definition still fits, and is otherwise
   * changed, with the reason. A restriction without a freeze becomes active exactly when it can be
   * derived and stored. A proxy is what is listed now, under its public name.
   */
  ghost predicate Fate(rx: Engine, e: Exposure, before: State, after: State, tools: seq<Value>, durable: bool) {
    && (!IsListed(tools, e.upstreamTool) ==>
          Gone(after, e.publicName, if Holds(before.cached, e) then Some(NOT_LISTED) else None))
    && forall i :: 0 <= i < |tools| && NameOf(tools[i]) == Some(e.upstreamTool) ==>
         ListedFate(rx, e, before, after, tools[i], durable)
  }

  ghost predicate ListedFate(rx: Engine, e: Exposure, before: State, after: State, tool: Value, durable: bool)
    requires tool.Obj?
  {
    match e.mode
    case Proxy => Shows(after, e, tool, Obj(tool.fields["name" := Str(e.publicName)]))
    case Restricted(_, _) =>
      if Holds(before.cached, e) then
        if Fits(rx, e, tool) then Shows(after, e, tool, PublicIn(before.cached, e))
        else Gone(after, e.publicName, Some(INCOMPATIBLE))
      else if durable && Derive(rx, e, tool).Some? then Shows(after, e, tool, Derive(rx, e, tool).value)
      else Gone(after, e.publicName, None)
  }

  /** The verdict that survives when first freezes may be withdrawn. */
  function Kept(e: Exposure, previous: Entries, verdict: Result<Value, string>, durable: bool): Option<Value> {
    if verdict.Err? || (e.mode.Restricted? && e.upstreamTool !in previous && !durable) then None
    else Some(verdict.value)
  }

  lemma SettledHolds(cfg: Config, target: string, previous: Entries, d: Draft, n: string,
                     discovered: map<string, Value>, verdict: Result<Value, string>, durable: bool)
    requires cfg.WellFormed() && n in cfg.NamesOf(target) && DraftOk(cfg, previous, cfg.NamesOf(target), d)
    requires DraftHolds(d, cfg.exposures[n], previous, discovered, verdict)
    ensures var f := if d.cached != previous && !durable then Withdraw(cfg, d) else d;
            && Get(f.active, n) == Kept(cfg.exposures[n], previous, verdict, durable)
            && (n in f.active ==>
                  && cfg.exposures[n].upstreamTool in discovered
                  && Get(f.cached, cfg.exposures[n].upstreamTool) ==
                     Some(Entry(discovered[cfg.exposures[n].upstreamTool], f.active[n])))
            && Get(f.tombstones, n) ==
               if verdict.Err? && cfg.exposures[n].upstreamTool in previous then Some(verdict.error) else None
  {
    assert ActiveOk(previous, d, cfg.exposures[n]);
    forall m | m in d.freezes && m in cfg.exposures && cfg.exposures[m].upstreamTool == cfg.exposures[n].upstreamTool
      ensures m == n
    {
      assert m in cfg.NamesOf(target);
    }
  }

  lemma InstalledAt(cfg: Config, s: State, target: string, d: Draft, n: string)
    requires n in cfg.NamesOf(target)
    ensures var next := Install(cfg, s, target, d);
            && Get(next.active, n) == Get(d.active, n) && Get(next.changed, n) == Get(d.tombstones, n)
            && Get(next.cached, target) == Some(d.cached)
  {}

  lemma InstalledElsewhere(cfg: Config, s: State, target: string, d: Draft, n: string)
    requires n in cfg.exposures && cfg.exposures[n].targetId != target
    requires d.active.Keys <= cfg.NamesOf(target) && d.tombstones.Keys <= cfg.NamesOf(target)
    ensures var next := Install(cfg, s, target, d);
            Get(next.active, n) == Get(s.active, n) && Get(next.changed, n) == Get(s.changed, n)
  {}

  lemma VerdictFate(rx: Engine, e: Exposure, before: State, after: State, tools: seq<Value>, durable: bool)
    requires ReadListing(tools).Some?
    requires var previous := if e.targetId in before.cached then before.cached[e.targetId] else map[];
             var verdict := Verdict(rx, e, previous, ReadListing(tools).value);
             && Get(after.active, e.publicName) == Kept(e, previous, verdict, durable)
             && Get(after.changed, e.publicName) ==
                if verdict.Err? && e.upstreamTool in previous then Some(verdict.error) else None
    requires e.publicName in after.active ==>
               && e.upstreamTool in ReadListing(tools).value && e.targetId in after.cached
               && Get(after.cached[e.targetId], e.upstreamTool) ==
                  Some(Entry(ReadListing(tools).value[e.upstreamTool], after.active[e.publicName]))
    ensures Fate(rx, e, before, after, tools, durable)
  {
    hide Compatible;
    hide Fits;
    hide Derive;
    hide ReadListing;
    hide IsListed;
    ListingMeans(tools);
    forall i | 0 <= i < |tools| && NameOf(tools[i]) == Some(e.upstreamTool)
      ensures ListedFate(rx, e, before, after, tools[i], durable)
    {
      CompatibleMeans(rx, e, tools[i]);
    }
  }

  /** Every exposure of a refreshed target has its fate, and no other exposure is touched. */
  lemma RefreshFates(rx: Engine, cfg: Config, hasCache: bool, s: State, disk: Disk, target: string,
                     tools: seq<Value>, storeOk: bool, n: string)
    requires cfg.WellFormed() && n in cfg.exposures && target in cfg.targets && WellNamed(tools)
    ensures var e := cfg.exposures[n];
            var (next, nextDisk, _) := Refresh(rx, cfg, hasCache, s, disk, target, Some(tools), storeOk);
            && (e.targetId == target ==> Fate(rx, e, s, next, tools, hasCache && storeOk))
            && (e.targetId != target ==>
                  Get(next.active, n) == Get(s.active, n) && Get(next.changed, n) == Get(s.changed, n))
  {
    hide DraftFor;
    hide DraftOk;
    hide DraftHolds;
    hide Verdict;
    hide Withdraw;
    hide ReadListing;
    hide WellNamed;
    hide Install;
    hide HadCatalog;
    hide Fate;
    hide Kept;
    hide FinalOk;
    ListingMeans(tools);
    var e := cfg.exposures[n];
    var previous := if target in s.cached then s.cached[target] else map[];
    var discovered := ReadListing(tools).value;
    var draft := DraftFor(rx, cfg, previous, discovered, target);
    var durable := hasCache && storeOk;
    var final := if draft.cached != previous && !durable then Withdraw(cfg, draft) else draft;
    var next := Refresh(rx, cfg, hasCache, s, disk, target, Some(tools), storeOk).0;
    assert next == Install(cfg, s, target, final);
    if e.targetId == target {
      DraftForHolds(rx, cfg, target, previous, discovered, n);
      DraftForOk(rx, cfg, target, previous, discovered);
      SettledHolds(cfg, target, previous, draft, n, discovered, Verdict(rx, e, previous, discovered), durable);
      InstalledAt(cfg, s, target, final, n);
      VerdictFate(rx, e, s, next, tools, durable);
    } else {
      FinalDraft(rx, cfg, target, previous, discovered, durable);
      FinalWithin(cfg, target, previous, final, durable);
      InstalledElsewhere(cfg, s, target, final, n);
    }
  }

  /** Every exposure of a target that could be listed has its fate; without a listing nothing published changes. */
  ghost predicate TargetFates(rx: Engine, cfg: Config, before: State, after: State, target: string,
                              reply: Option<seq<Value>>, durable: bool)
  {
    if target in cfg.targets && reply.Some? && WellNamed(reply.value) then
      forall n :: n in cfg.exposures ==>
        if cfg.exposures[n].targetId == target then Fate(rx, cfg.exposures[n], before, after, reply.value, durable)
        else Get(after.active, n) == Get(before.active, n) && Get(after.changed, n) == Get(before.changed, n)
    else after == before.(unavailable := after.unavailable)
  }

  lemma RefreshSettles(rx: Engine, cfg: Config, hasCache: bool, s: State, disk: Disk, target: string,
                       reply: Option<seq<Value>>, storeOk: bool)
    requires cfg.WellFormed()
    ensures TargetFates(rx, cfg, s, Refresh(rx, cfg, hasCache, s, disk, target, reply, storeOk).0, target, reply,
                        hasCache && storeOk)
  {
    hide DraftFor;
    hide Withdraw;
    hide ReadListing;
    hide WellNamed;
    hide Install;
    hide HadCatalog;
    hide Fate;
    if reply.Some? { ListingMeans(reply.value); }
    if target in cfg.targets && reply.Some? && WellNamed(reply.value) {
      var next := Refresh(rx, cfg, hasCache, s, disk, target, reply, storeOk).0;
      forall n | n in cfg.exposures
        ensures cfg.exposures[n].targetId == target ==>
                  Fate(rx, cfg.exposures[n], s, next, reply.value, hasCache && storeOk)
        ensures cfg.exposures[n].targetId != target ==>
                  Get(next.active, n) == Get(s.active, n) && Get(next.changed, n) == Get(s.changed, n)
      {
        RefreshFates(rx, cfg, hasCache, s, disk, target, reply.value, storeOk, n);
      }
    }
  }

  lemma FinalWithin(cfg: Config, target: string, previous: Entries, d: Draft, stored: bool)
    requires FinalOk(cfg, target, previous, d, stored)
    ensures d.active.Keys <= cfg.NamesOf(target) && d.tombstones.Keys <= cfg.NamesOf(target)
  {}

  /** A cached entry that a starting process is willing to publish. */
  predicate Loadable(e: Exposure, entry: Entry) {
    && NameOf(entry.upstream) == Some(e.upstreamTool) && NameOf(entry.public) == Some(e.publicName)
    && "inputSchema" in entry.public.fields && entry.public.fields["inputSchema"].Obj?
  }

  /** What a starting process reads from the durable store; loading some targets may fail. */
  function Load(cfg: Config, hasCache: bool, disk: Disk, failing: set<string>): State {
    var cached := map t | t in cfg.targets && t in disk && t !in failing && hasCache :: disk[t];
    var active := map n | n in cfg.exposures && cfg.exposures[n].targetId in cached
                          && cfg.exposures[n].upstreamTool in cached[cfg.exposures[n].targetId]
                          && Loadable(cfg.exposures[n],
                                      cached[cfg.exposures[n].targetId][cfg.exposures[n].upstreamTool]) ::
      cached[cfg.exposures[n].targetId][cfg.exposures[n].upstreamTool].public;
    State(active, cached, map[], {})
  }

  lemma LoadInv(cfg: Config, hasCache: bool, disk: Disk, failing: set<string>)
    requires cfg.WellFormed()
    ensures Inv(cfg, Load(cfg, hasCache, disk, failing), disk)
  {
    hide Loadable;
  }

  /**
   * What a process publishes as it starts: exactly the stored definitions it can read that carry the
   * exposure's two names and an object schema.
   */
  lemma LoadExactly(cfg: Config, hasCache: bool, disk: Disk, failing: set<string>, n: string)
    requires cfg.WellFormed() && n in cfg.exposures
    ensures var e, s := cfg.exposures[n], Load(cfg, hasCache, disk, failing);
            && (n in s.active <==>
                  && hasCache && e.targetId !in failing && Holds(disk, e)
                  && var entry := disk[e.targetId][e.upstreamTool];
                  && entry.upstream.Obj? && Get(entry.upstream.fields, "name") == Some(Str(e.upstreamTool))
                  && entry.public.Obj? && Get(entry.public.fields, "name") == Some(Str(n))
                  && "inputSchema" in entry.public.fields && entry.public.fields["inputSchema"].Obj?)
            && (n in s.active ==> s.active[n] == PublicIn(disk, e))
            && Get(s.cached, e.targetId) ==
               (if hasCache && e.targetId !in failing then Get(disk, e.targetId) else None)
            && s.changed == map[] && s.unavailable == {}
  {}

  /** One event: a refresh of one target, or a restart of the process on the same store. */
  datatype Event =
    | RefreshOne(target: string, reply: Option<seq<Value>>, storeOk: bool)
    | Restart(failing: set<string>)

  datatype World = World(state: State, disk: Disk)

  function Next(rx: Engine, cfg: Config, hasCache: bool, w: World, ev: Event): World {
    match ev
    case RefreshOne(target, reply, storeOk) =>
      var (next, nextDisk, told) := Refresh(rx, cfg, hasCache, w.state, w.disk, target, reply, storeOk);
      World(next, nextDisk)
    case Restart(failing) => World(Load(cfg, hasCache, w.disk, failing), w.disk)
  }

  function Run(rx: Engine, cfg: Config, hasCache: bool, w: World, events: seq<Event>): World {
    if events == [] then w
    else Next(rx, cfg, hasCache, Run(rx, cfg, hasCache, w, events[..|events| - 1]), events[|events| - 1])
  }

  function Booted(cfg: Config, hasCache: bool, disk: Disk): World {
    World(Load(cfg, hasCache, disk, {}), disk)
  }

  /** No restart in the events fails to load the target. */
  ghost predicate Reloads(events: seq<Event>, target: string) {
    forall i :: 0 <= i < |events| && events[i].Restart? ==> target !in events[i].failing
  }

  lemma {:induction false} RunInv(rx: Engine, cfg: Config, hasCache: bool, w: World, events: seq<Event>)
    requires cfg.WellFormed() && Inv(cfg, w.state, w.disk)
    ensures var r := Run(rx, cfg, hasCache, w, events); Inv(cfg, r.state, r.disk)
  {
    hide Inv;
    hide Refresh;
    hide Load;
    if events != [] {
      var front := Run(rx, cfg, hasCache, w, events[..|events| - 1]);
      RunInv(rx, cfg, hasCache, w, events[..|events| - 1]);
      match events[|events| - 1] {
        case RefreshOne(target, reply, storeOk) =>
          RefreshKeeps(rx, cfg, hasCache, front.state, front.disk, target, reply, storeOk);
        case Restart(failing) => LoadInv(cfg, hasCache, front.disk, failing);
      }
    }
  }

  lemma {:induction false} FreezeFrom(rx: Engine, cfg: Config, hasCache: bool, w: World, events: seq<Event>, n: string)
    requires cfg.WellFormed() && Inv(cfg, w.state, w.disk)
    requires n in cfg.exposures && cfg.exposures[n].mode.Restricted? && Holds(w.state.cached, cfg.exposures[n])
    requires hasCache && Reloads(events, cfg.exposures[n].targetId)
    ensures var r := Run(rx, cfg, hasCache, w, events);
            Holds(r.state.cached, cfg.exposures[n])
            && PublicIn(r.state.cached, cfg.exposures[n]) == PublicIn(w.state.cached, cfg.exposures[n])
  {
    hide Refresh;
    if events != [] {
      var e := cfg.exposures[n];
      var before := events[..|events| - 1];
      var front := Run(rx, cfg, hasCache, w, before);
      assert Reloads(before, e.targetId) by {
        forall i | 0 <= i < |before| && before[i].Restart?
          ensures e.targetId !in before[i].failing { assert before[i] == events[i]; }
      }
      FreezeFrom(rx, cfg, hasCache, w, before, n);
      RunInv(rx, cfg, hasCache, w, before);
      assert ExposureOk(front.state, front.disk, e);
      match events[|events| - 1] {
        case RefreshOne(target, reply, storeOk) =>
          RefreshKeeps(rx, cfg, hasCache, front.state, front.disk, target, reply, storeOk);
        case Restart(failing) =>
          assert e.targetId !in failing;
      }
    }
  }

  /**
   * The freeze, over whole runs with restarts: a restricted definition in the cache keeps its
   * public part, the durable copy holds the same one, and whatever is active later is that one.
   */
  lemma FrozenForever(rx: Engine, cfg: Config, disk: Disk, past: seq<Event>, future: seq<Event>, n: string)
    requires cfg.WellFormed() && n in cfg.exposures && cfg.exposures[n].mode.Restricted?
    requires Holds(Run(rx, cfg, true, Booted(cfg, true, disk), past).state.cached, cfg.exposures[n])
    requires Reloads(future, cfg.exposures[n].targetId)
    ensures var e := cfg.exposures[n];
            var now := Run(rx, cfg, true, Booted(cfg, true, disk), past);
            var later := Run(rx, cfg, true, now, future);
            var public := PublicIn(now.state.cached, e);
            && Holds(later.state.cached, e) && PublicIn(later.state.cached, e) == public
            && Holds(later.disk, e) && PublicIn(later.disk, e) == public
            && (n in later.state.active ==> later.state.active[n] == public)
            && later.state.active.Keys !! later.state.changed.Keys
  {
    hide Next;
    hide Run;
    hide Load;
    LoadInv(cfg, true, disk, {});
    RunInv(rx, cfg, true, Booted(cfg, true, disk), past);
    var now := Run(rx, cfg, true, Booted(cfg, true, disk), past);
    FreezeFrom(rx, cfg, true, now, future, n);
    RunInv(rx, cfg, true, now, future);
    var later := Run(rx, cfg, true, now, future);
    assert ExposureOk(later.state, later.disk, cfg.exposures[n]);
  }

  /** A restricted tool is first active only if its definition was loaded or stored just then. */
  lemma FirstActive(rx: Engine, cfg: Config, hasCache: bool, disk: Disk, past: seq<Event>, ev: Event, n: string)
    requires cfg.WellFormed() && n in cfg.exposures && cfg.exposures[n].mode.Restricted?
    requires var now := Run(rx, cfg, hasCache, Booted(cfg, hasCache, disk), past);
             !Holds(now.state.cached, cfg.exposures[n]) && n in Next(rx, cfg, hasCache, now, ev).state.active
    ensures var e := cfg.exposures[n];
            var next := Next(rx, cfg, hasCache, Run(rx, cfg, hasCache, Booted(cfg, hasCache, disk), past), ev);
            && hasCache
            && (ev.RefreshOne? ==> ev.storeOk && ev.reply.Some? && ev.target == e.targetId)
            && Holds(next.disk, e) && PublicIn(next.disk, e) == next.state.active[n]
  {
    hide Run;
    hide Refresh;
    var e := cfg.exposures[n];
    LoadInv(cfg, hasCache, disk, {});
    RunInv(rx, cfg, hasCache, Booted(cfg, hasCache, disk), past);
    var now := Run(rx, cfg, hasCache, Booted(cfg, hasCache, disk), past);
    var next := Next(rx, cfg, hasCache, now, ev);
    match ev {
      case RefreshOne(target, reply, storeOk) =>
        RefreshKeeps(rx, cfg, hasCache, now.state, now.disk, target, reply, storeOk);
        assert ExposureOk(next.state, next.disk, e);
        assert FreezeStep(now.state, next.state, e, target, hasCache && storeOk && reply.Some?);
      case Restart(failing) =>
        LoadInv(cfg, hasCache, now.disk, failing);
        assert ExposureOk(next.state, next.disk, e);
    }
  }

  // What the client is told.

  /** Something of the target was known before: a cached definition set, or a published tool. */
  ghost predicate Known(cfg: Config, s: State, target: string) {
    target in s.cached || exists n :: n in s.active && n in cfg.exposures && cfg.exposures[n].targetId == target
  }

  /**
   * A refresh is announced exactly when it could read a listing, and the target was unavailable, or
   * was known and what is published has changed. A target that was cached stays so.
   */
  lemma ToldExactly(rx: Engine, cfg: Config, hasCache: bool, s: State, disk: Disk, target: string,
                    reply: Option<seq<Value>>, storeOk: bool)
    ensures var (next, nextDisk, told) := Refresh(rx, cfg, hasCache, s, disk, target, reply, storeOk);
            && (told <==>
                  && target in cfg.targets && reply.Some? && WellNamed(reply.value)
                  && (target in s.unavailable || (Known(cfg, s, target) && next.active != s.active)))
            && s.cached.Keys <= next.cached.Keys
            && (!(target in cfg.targets && reply.Some? && WellNamed(reply.value)) ==> next.active == s.active)
  {
    hide DraftFor;
    hide Withdraw;
    hide ReadListing;
    hide WellNamed;
    if reply.Some? { ListingMeans(reply.value); }
  }

  /** Every event of the run is a refresh of a target that was cached to begin with, and none is announced. */
  ghost predicate Silent(rx: Engine, cfg: Config, hasCache: bool, w: World, events: seq<Event>) {
    forall k :: 0 <= k < |events| ==>
      && events[k].RefreshOne? && events[k].target in w.state.cached
      && var before := Run(rx, cfg, hasCache, w, events[..k]);
      && !Refresh(rx, cfg, hasCache, before.state, before.disk, events[k].target, events[k].reply, events[k].storeOk).2
  }

  /** No silent change: over any run of refreshes of cached targets, a change in what is published is announced. */
  lemma {:induction false} ChangesAreTold(rx: Engine, cfg: Config, hasCache: bool, w: World, events: seq<Event>)
    requires Silent(rx, cfg, hasCache, w, events)
    ensures var r := Run(rx, cfg, hasCache, w, events);
            r.state.active == w.state.active && w.state.cached.Keys <= r.state.cached.Keys
  {
    hide Refresh;
    if events != [] {
      var front, last := events[..|events| - 1], events[|events| - 1];
      forall k | 0 <= k < |front|
        ensures front[k] == events[k] && front[..k] == events[..k]
      {}
      ChangesAreTold(rx, cfg, hasCache, w, front);
      var before := Run(rx, cfg, hasCache, w, front);
      ToldExactly(rx, cfg, hasCache, before.state, before.disk, last.target, last.reply, last.storeOk);
    }
  }

  // The catalog object.

  method ReadTools(tools: seq<Value>) returns (r: Option<map<string, Value>>)
    ensures r == ReadListing(tools)
  {
    hide NameOf;
    var discovered: map<string, Value> := map[];
    for i := 0 to |tools|
      invariant ReadListing(tools[..i]) == Some(discovered)
    {
      ghost var next := tools[..i + 1];
      assert next[..|next| - 1] == tools[..i] && next[|next| - 1] == tools[i];
      var name := NameOf(tools[i]);
      if name.None? || name.value in discovered {
        ReadingFails(tools, i + 1);
        return None;
      }
      discovered := discovered[name.value := tools[i]];
    }
    assert tools[..|tools|] == tools;
    return Some(discovered);
  }

  lemma {:induction false} ReadingFails(tools: seq<Value>, i: nat)
    requires i <= |tools| && ReadListing(tools[..i]).None?
    ensures ReadListing(tools).None?
  {
    hide NameOf;
    if i == |tools| {
      assert tools[..i] == tools;
    } else {
      assert tools[..|tools| - 1][..i] == tools[..i];
      ReadingFails(tools[..|tools| - 1], i);
    }
  }

  /** The exposure loop of a refresh, in name order. */
  method DraftTarget(rx: Engine, cfg: Config, previous: Entries, discovered: map<string, Value>, target: string)
    returns (nextCached: Entries, nextActive: map<string, Value>, tombstones: map<string, string>, freezes: set<string>)
    requires cfg.WellFormed()
    ensures Draft(nextCached, nextActive, tombstones, freezes) == DraftFor(rx, cfg, previous, discovered, target)
  {
    hide DraftAll;
    hide ProjectedTool;
    nextCached, nextActive, tombstones, freezes := previous, map[], map[], {};
    var names := Text.Sorted(cfg.NamesOf(target));
    DraftAllStep(rx, cfg, previous, discovered, names[..0]);
    for i := 0 to |names|
      invariant Draft(nextCached, nextActive, tombstones, freezes) ==
                  DraftAll(rx, cfg, previous, discovered, names[..i])
    {
      assert names[i] in names;
      assert names[..i + 1][..i] == names[..i] && names[..i + 1][i] == names[i];
      DraftAllStep(rx, cfg, previous, discovered, names[..i + 1]);
      var e := cfg.exposures[names[i]];
      if e.upstreamTool !in discovered {
        if e.upstreamTool in previous { tombstones := tombstones[e.publicName := NOT_LISTED]; }
        continue;
      }
      var observed := discovered[e.upstreamTool];
      match ProjectedTool(rx, e, observed, Get(previous, e.upstreamTool)) {
        case Ok((public, isNew)) =>
          if isNew { freezes := freezes + {e.publicName}; }
          nextCached := nextCached[e.upstreamTool := Entry(observed, public)];
          nextActive := nextActive[e.publicName := public];
        case Err(reason) =>
          if e.upstreamTool in previous { tombstones := tombstones[e.publicName := reason]; }
      }
    }
    assert names[..|names|] == names;
  }

  /** The catalog object with the store it persists to. */
  class V2Catalog {
    const rx: Engine
    const cfg: Config
    const hasCache: bool
    var active: map<string, Value>
    var cached: map<string, Entries>
    var changed: map<string, string>
    var unavailable: set<string>
    var disk: Disk

    ghost function Current(): State
      reads this
    {
      State(active, cached, changed, unavailable)
    }

    ghost predicate Valid()
      reads this
    {
      cfg.WellFormed() && Inv(cfg, Current(), disk)
    }

    constructor (rx: Engine, cfg: Config, hasCache: bool, disk: Disk, failing: set<string>)
      requires cfg.WellFormed()
      ensures Valid()
      ensures this.rx == rx && this.cfg == cfg && this.hasCache == hasCache && this.disk == disk
      ensures Current() == Load(cfg, hasCache, disk, failing)
    {
      hide Loadable;
      this.rx, this.cfg, this.hasCache, this.disk := rx, cfg, hasCache, disk;
      var loaded := Load(cfg, hasCache, disk, failing);
      this.active, this.cached := loaded.active, loaded.cached;
      this.changed, this.unavailable := loaded.changed, loaded.unavailable;
      LoadInv(cfg, hasCache, disk, failing);
    }

    /** Replaces the durable copy of a target, or fails and leaves it. */
    method Store(target: string, entries: Entries, storeOk: bool) returns (stored: bool)
      modifies this`disk
      ensures stored <==> hasCache && storeOk
      ensures disk == if stored then old(disk)[target := entries] else old(disk)
    {
      stored := hasCache && storeOk;
      if stored { disk := disk[target := entries]; }
    }

    ghost function Settled(draft: Draft, previous: Entries, storeOk: bool): Draft {
      if draft.cached != previous && !(hasCache && storeOk) then Withdraw(cfg, draft) else draft
    }

    /** Stores what changed; a restriction gains no first definition without a durable copy. */
    method Persist(target: string, previous: Entries, ghost draft: Draft, nextCached: Entries,
                   nextActive: map<string, Value>,
                   freezes: set<string>, storeOk: bool)
      returns (finalCached: Entries, finalActive: map<string, Value>)
      requires draft.cached == nextCached && draft.active == nextActive && draft.freezes == freezes
      modifies this`disk
      ensures finalCached == Settled(draft, previous, storeOk).cached
              && finalActive == Settled(draft, previous, storeOk).active
      ensures Settled(draft, previous, storeOk).tombstones == draft.tombstones
      ensures disk == if draft.cached != previous && hasCache && storeOk then old(disk)[target := draft.cached]
                      else old(disk)
    {
      finalCached, finalActive := nextCached, nextActive;
      if previous != nextCached {
        var stored := Store(target, nextCached, storeOk);
        if !stored {
          finalActive := nextActive - freezes;
          finalCached := nextCached - set n | n in freezes && n in cfg.exposures :: cfg.exposures[n].upstreamTool;
        }
      }
    }

    /** Swaps in what a refresh built for its target. */
    method Adopt(target: string, ghost d: Draft, nextCached: Entries, nextActive: map<string, Value>,
                 tombstones: map<string, string>)
      returns (told: bool)
      requires d.cached == nextCached && d.active == nextActive && d.tombstones == tombstones
      modifies this`active, this`cached, this`changed, this`unavailable
      ensures Current() == Install(cfg, old(Current()), target, d)
      ensures told <==> target in old(unavailable) || (HadCatalog(cfg, old(Current()), target) && active != old(active))
    {
      hide HadCatalog;
      hide OfOthers;
      var wasUnavailable := target in unavailable;
      var hadPriorCatalog := HadCatalog(cfg, State(active, cached, changed, unavailable), target);
      var priorActive := active;
      active := OfOthers(cfg, active, target) + nextActive;
      changed := OfOthers(cfg, changed, target) + tombstones;
      cached := cached[target := nextCached];
      unavailable := unavailable - {target};
      told := wasUnavailable || (hadPriorCatalog && active != priorActive);
    }

    /** Drafts, stores and installs what a listing of the target makes of its exposures. */
    method AdoptListing(target: string, discovered: map<string, Value>, storeOk: bool) returns (told: bool)
      requires cfg.WellFormed()
      modifies this
      ensures (Current(), disk, told) ==
              Listed(rx, cfg, hasCache, old(Current()), old(disk), target, discovered, storeOk)
    {
      hide DraftFor;
      hide HadCatalog;
      hide Install;
      hide Withdraw;
      hide Config.WellFormed;
      var previous := if target in cached then cached[target] else map[];
      var nextCached, nextActive, tombstones, freezes := DraftTarget(rx, cfg, previous, discovered, target);
      ghost var draft := DraftFor(rx, cfg, previous, discovered, target);
      var finalCached, finalActive := Persist(target, previous, draft, nextCached, nextActive, freezes, storeOk);
      told := Adopt(target, Settled(draft, previous, storeOk), finalCached, finalActive, tombstones);
    }

    /** One refresh; `told` is whether the client is to be notified. */
    method RefreshTarget(target: string, reply: Option<seq<Value>>, storeOk: bool) returns (told: bool)
      requires Valid()
      modifies this
      ensures Valid()
      ensures (Current(), disk, told) == Refresh(rx, cfg, hasCache, old(Current()), old(disk), target, reply, storeOk)
      ensures TargetFates(rx, cfg, old(Current()), Current(), target, reply, hasCache && storeOk)
    {
      hide TargetFates;
      hide Listed;
      hide ReadListing;
      hide Inv;
      hide FreezeStep;
      hide Config.WellFormed;
      RefreshKeeps(rx, cfg, hasCache, Current(), disk, target, reply, storeOk);
      RefreshSettles(rx, cfg, hasCache, Current(), disk, target, reply, storeOk);
      if target !in cfg.targets { return false; }
      if reply.None? {
        unavailable := unavailable + {target};
        return false;
      }
      var discovered := ReadTools(reply.value);
      if discovered.None? { return false; }
      told := AdoptListing(target, discovered.value, storeOk);
    }
  }
}
