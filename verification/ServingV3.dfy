/** Concurrent list and call requests over the version-3 catalog, step by step under its two locks. */
module ServingV3 {
  import opened Json
  import opened Schemas
  import opened ProjectionV3
  import opened CatalogV3
  import opened Intersection
  import PublicRoot

  type TaskId = nat

  datatype Job = ListJob | CallJob(name: string, args: Value)

  /** Where a request task stands. The steps from Sequenced to its release hold the sequence lock. */
  datatype Pc =
    | Queued
    | Sequenced
    | Refreshing(prior: Catalog)
    | AdoptedList(changed: bool, reported: Snapshot)
    | Listed(changed: bool)
    | AdoptedCall(changed: bool, available: bool, state: Option<ToolState>)
    | Captured(available: bool, state: Option<ToolState>)
    | Executing
    | QueuedAgain
    | SequencedAgain
    | RefreshingAgain(prior: Catalog)
    | AdoptedAgain(changed: bool)
    | Finished

  datatype Task = Task(job: Job, pc: Pc)

  /** Messages written downstream, in order. */
  datatype Message = ListResponse(snapshot: Snapshot) | ListChanged | Reply(task: TaskId)

  /**
   * A call that reached argument validation, with the tool it was validated against, and for the
   * record the definitions then behind its target and whether the target's last discovery succeeded.
   */
  datatype Resolution = Resolution(name: string, tool: Value, args: Value, call: Option<Call>, source: Source,
                                   succeeded: bool)

  /** What is remembered about the past for the statements below; nothing a task does depends on it. */
  datatype Ledger = Ledger(
    sources: map<string, Source>,
    lastOutcome: map<string, bool>,
    discoveries: set<(string, Definitions)>,
    history: seq<Tools>)

  datatype System = System(
    catalog: Catalog,
    sequenceLock: Option<TaskId>,
    refreshLock: Option<TaskId>,
    tasks: map<TaskId, Task>,
    wire: seq<Message>,
    resolved: seq<Resolution>,
    broken: bool,
    ledger: Ledger)

  /** One scheduling choice: a request arrives, or a task takes its next step in some world. */
  datatype Choice =
    | Arrive(task: TaskId, job: Job)
    | Advance(task: TaskId, world: World, notified: bool, written: bool)

  // Steps.

  function SetPc(s: System, t: TaskId, pc: Pc): System
    requires t in s.tasks
  {
    s.(tasks := s.tasks[t := s.tasks[t].(pc := pc)])
  }

  /** The guard drops: the sequence lock is free again. */
  function Release(s: System, t: TaskId, pc: Pc): System
    requires t in s.tasks
  {
    SetPc(s, t, pc).(sequenceLock := None)
  }

  function Write(s: System, messages: seq<Message>): System {
    s.(wire := s.wire + messages)
  }

  /** A failed write ends the request; the client can no longer be told anything. */
  function Break(s: System, t: TaskId): System
    requires t in s.tasks
  {
    Release(s, t, Finished).(broken := true)
  }

  function Notice(changed: bool): seq<Message> {
    if changed then [ListChanged] else []
  }

  function RecordRefresh(l: Ledger, found: map<string, Definitions>, failed: set<string>, before: Tools,
                         after: Tools): Ledger
  {
    Ledger(l.sources + (map t | t in found :: Discovered(found[t])),
           l.lastOutcome + (map t | t in found :: true) + (map t | t in failed :: false),
           l.discoveries + (set t | t in found :: (t, found[t])),
           if after != before then l.history + [after] else l.history)
  }

  /** Adoption computes from the catalog that was read, and swaps against the catalog it finds. */
  function AdoptInto(rx: Engine, cfg: Config, s: System, prior: Catalog, targets: set<string>, world: World,
                     force: bool, mark: bool)
    : System
    requires prior.snapshot.tools.Keys == cfg.exposures.Keys
  {
    var found := Found(cfg, prior, targets, world, force);
    var failed := Failed(cfg, prior, targets, world, force);
    var tools := NextTools(rx, cfg, prior.snapshot.tools, found);
    s.(catalog := RefreshFrom(rx, cfg, prior, s.catalog, targets, world, force, mark),
       refreshLock := None,
       ledger := RecordRefresh(s.ledger, found, failed, s.catalog.snapshot.tools, tools))
  }

  /** The definitions last obtained for a target. */
  function SourceOf(l: Ledger, target: string): Source {
    if target in l.sources then l.sources[target] else Cached(map[])
  }

  /** Whether the last discovery of a target succeeded. */
  predicate Succeeded(l: Ledger, target: string) {
    target in l.lastOutcome && l.lastOutcome[target]
  }

  function TargetOf(cfg: Config, job: Job): string {
    if job.CallJob? && job.name in cfg.exposures then cfg.exposures[job.name].targetId else ""
  }

  function StepTask(rx: Engine, cfg: Config, s: System, t: TaskId, world: World, notified: bool, written: bool): System
    requires t in s.tasks
  {
    var task := s.tasks[t];
    match task.pc
    case Queued =>
      if task.job.CallJob? && task.job.name !in cfg.exposures then Write(SetPc(s, t, Finished), [Reply(t)])
      else if s.sequenceLock.Some? then s
      else SetPc(s, t, Sequenced).(sequenceLock := Some(t))
    case Sequenced =>
      if s.refreshLock.Some? then s else SetPc(s, t, Refreshing(s.catalog)).(refreshLock := Some(t))
    case Refreshing(prior) =>
      if prior.snapshot.tools.Keys != cfg.exposures.Keys then s
      else if task.job.ListJob? then
        var next := AdoptInto(rx, cfg, s, prior, ExposedTargets(cfg), world, false, true);
        SetPc(next, t, AdoptedList(prior.listed && next.catalog.snapshot.tools != s.catalog.snapshot.tools,
                                   next.catalog.snapshot))
      else
        var target := TargetOf(cfg, task.job);
        var next := AdoptInto(rx, cfg, s, prior, {target}, world, false, false);
        SetPc(next, t, AdoptedCall(
          prior.listed && next.catalog.snapshot.tools != s.catalog.snapshot.tools,
          target !in Failed(cfg, prior, {target}, world, false),
          Get(next.catalog.snapshot.tools, task.job.name)))
    case AdoptedList(changed, reported) =>
      if !written then Break(s, t) else Write(SetPc(s, t, Listed(changed)), [ListResponse(reported)])
    case Listed(changed) =>
      if changed && !written then Break(s, t) else Write(Release(s, t, Finished), Notice(changed))
    case AdoptedCall(changed, available, state) =>
      if changed && !written then Break(s, t) else Write(SetPc(s, t, Captured(available, state)), Notice(changed))
    case Captured(available, state) =>
      if available && state.Some? && state.value.Ready? && task.job.CallJob? then
        var call := Resolve(rx, cfg.exposures, cfg.targets, task.job.name, state.value.tool, task.job.args);
        var target := TargetOf(cfg, task.job);
        var next := s.(resolved := s.resolved + [Resolution(task.job.name, state.value.tool, task.job.args, call,
                                                            SourceOf(s.ledger, target), Succeeded(s.ledger, target))]);
        if call.Some? then Release(next, t, Executing) else Write(Release(next, t, Finished), [Reply(t)])
      else Write(Release(s, t, Finished), [Reply(t)])
    case Executing => SetPc(s, t, QueuedAgain)
    case QueuedAgain => if s.sequenceLock.Some? then s else SetPc(s, t, SequencedAgain).(sequenceLock := Some(t))
    case SequencedAgain =>
      if !notified then Write(Release(s, t, Finished), [Reply(t)])
      else if s.refreshLock.Some? then s
      else SetPc(s, t, RefreshingAgain(s.catalog)).(refreshLock := Some(t))
    case RefreshingAgain(prior) =>
      if prior.snapshot.tools.Keys != cfg.exposures.Keys then s
      else
        var next := AdoptInto(rx, cfg, s, prior, {TargetOf(cfg, task.job)}, world, true, false);
        SetPc(next, t, AdoptedAgain(prior.listed && next.catalog.snapshot.tools != s.catalog.snapshot.tools))
    case AdoptedAgain(changed) =>
      if changed && !written then Break(s, t) else Write(Release(s, t, Finished), Notice(changed) + [Reply(t)])
    case Finished => s
  }

  function Next(rx: Engine, cfg: Config, s: System, c: Choice): System {
    match c
    case Arrive(t, job) => if t in s.tasks then s else s.(tasks := s.tasks[t := Task(job, Queued)])
    case Advance(t, world, notified, written) =>
      if t in s.tasks then StepTask(rx, cfg, s, t, world, notified, written) else s
  }

  /** The process as it starts: a catalog projected from disk caches, nothing listed, nothing fresh. */
  function Start(rx: Engine, cfg: Config, caches: map<string, Definitions>): System {
    var sources := map t | t in cfg.targets :: Cached(if t in caches then caches[t] else map[]);
    var tools := map n | n in cfg.exposures && cfg.exposures[n].targetId in cfg.targets ::
      StateFrom(rx, cfg.exposures[n], sources[cfg.exposures[n].targetId]);
    System(Catalog(Snapshot(0, tools), {}, false), None, None, map[], [], [], false,
           Ledger(sources, map[], {}, [tools]))
  }

  function Run(rx: Engine, cfg: Config, caches: map<string, Definitions>, choices: seq<Choice>): System {
    if choices == [] then Start(rx, cfg, caches)
    else Next(rx, cfg, Run(rx, cfg, caches, choices[..|choices| - 1]), choices[|choices| - 1])
  }

  // What the client has been told.

  /** The last list response on the wire, and whether a notification followed it. */
  datatype Told = Told(last: Option<Snapshot>, noticed: bool)

  function Hear(told: Told, m: Message): Told {
    match m
    case ListResponse(snapshot) => Told(Some(snapshot), false)
    case ListChanged => Told(told.last, true)
    case Reply(_) => told
  }

  function Heard(wire: seq<Message>): Told {
    if wire == [] then Told(None, false) else Hear(Heard(wire[..|wire| - 1]), wire[|wire| - 1])
  }

  ghost predicate Announced(wire: seq<Message>, tools: Tools) {
    var told := Heard(wire);
    told.last.Some? && told.last.value.tools != tools ==> told.noticed
  }

  lemma HeardOne(wire: seq<Message>, m: Message)
    ensures Heard(wire + [m]) == Hear(Heard(wire), m)
  {
    assert (wire + [m])[..|wire|] == wire;
  }

  ghost predicate LastListing(wire: seq<Message>, i: nat) {
    && i < |wire| && wire[i].ListResponse?
    && forall j :: i < j < |wire| ==> !wire[j].ListResponse?
  }

  ghost predicate NoticeAfter(wire: seq<Message>, i: nat) {
    exists k :: i < k < |wire| && wire[k] == ListChanged
  }

  /** The same in terms of positions on the wire. */
  lemma {:induction false} HeardAt(wire: seq<Message>, i: nat)
    requires LastListing(wire, i)
    ensures Heard(wire).last == Some(wire[i].snapshot)
    ensures Heard(wire).noticed <==> NoticeAfter(wire, i)
  {
    var front, m := wire[..|wire| - 1], wire[|wire| - 1];
    if i < |front| {
      assert forall j :: 0 <= j < |front| ==> front[j] == wire[j];
      HeardAt(front, i);
      if NoticeAfter(front, i) {
        var k :| i < k < |front| && front[k] == ListChanged;
        assert wire[k] == ListChanged;
      }
      if m == ListChanged { assert wire[|wire| - 1] == ListChanged; }
      if NoticeAfter(wire, i) && m != ListChanged {
        var k :| i < k < |wire| && wire[k] == ListChanged;
        assert front[k] == ListChanged;
      }
    }
  }

  lemma {:induction false} HeardNothing(wire: seq<Message>)
    requires forall i :: 0 <= i < |wire| ==> !wire[i].ListResponse?
    ensures Heard(wire).last.None?
  {
    if wire != [] {
      var front := wire[..|wire| - 1];
      assert forall i :: 0 <= i < |front| ==> front[i] == wire[i];
      HeardNothing(front);
    }
  }

  // The invariant.

  predicate HoldsSequence(pc: Pc) {
    !pc.Queued? && !pc.Executing? && !pc.QueuedAgain? && !pc.Finished?
  }

  predicate HoldsRefresh(pc: Pc) {
    pc.Refreshing? || pc.RefreshingAgain?
  }

  /** Each lock is held by exactly that task whose position says so. */
  ghost predicate LocksOk(s: System) {
    && (forall t :: t in s.tasks ==> (HoldsSequence(s.tasks[t].pc) <==> s.sequenceLock == Some(t)))
    && (forall t :: t in s.tasks ==> (HoldsRefresh(s.tasks[t].pc) <==> s.refreshLock == Some(t)))
    && (s.sequenceLock.Some? ==> s.sequenceLock.value in s.tasks)
    && (s.refreshLock.Some? ==> s.refreshLock.value in s.tasks)
  }

  /** The catalog is an index over the last discoveries; the ledger remembers every generation. */
  ghost predicate CatalogOk(rx: Engine, cfg: Config, c: Catalog, l: Ledger) {
    && Refines(rx, cfg, c.snapshot.tools, l.sources)
    && c.freshTargets == (set t | t in l.lastOutcome && l.lastOutcome[t])
    && (forall t :: t in c.freshTargets ==> t in l.sources && l.sources[t].Discovered?)
    && (forall t :: t in l.sources && l.sources[t].Discovered? ==> (t, l.sources[t].defs) in l.discoveries)
    && |l.history| == c.snapshot.generation + 1
    && l.history[c.snapshot.generation] == c.snapshot.tools
    && (forall g :: 0 < g < |l.history| ==> l.history[g] != l.history[g - 1])
  }

  /** Responses carry whole generations, in order, and none is sent before a listing was recorded. */
  ghost predicate WireOk(wire: seq<Message>, c: Catalog, l: Ledger) {
    && (forall i :: 0 <= i < |wire| && wire[i].ListResponse? ==>
          && c.listed
          && wire[i].snapshot.generation < |l.history|
          && wire[i].snapshot.tools == l.history[wire[i].snapshot.generation])
    && (forall i, j :: 0 <= i < j < |wire| && wire[i].ListResponse? && wire[j].ListResponse? ==>
          wire[i].snapshot.generation <= wire[j].snapshot.generation)
  }

  /** The tool is projected from these definitions, which this process discovered with no later failure. */
  ghost predicate FromLatest(rx: Engine, cfg: Config, discoveries: set<(string, Definitions)>, name: string,
                             tool: Value,
                             source: Source, succeeded: bool)
  {
    && name in cfg.exposures && source.Discovered? && succeeded
    && (cfg.exposures[name].targetId, source.defs) in discoveries
    && cfg.exposures[name].upstreamTool in source.defs
    && Derive(rx, cfg.exposures[name], source.defs[cfg.exposures[name].upstreamTool]) == Ok(tool)
  }

  ghost predicate StateOk(rx: Engine, cfg: Config, l: Ledger, job: Job, available: bool, state: Option<ToolState>) {
    job.CallJob? && available && state.Some? && state.value.Ready? ==>
      FromLatest(rx, cfg, l.discoveries, job.name, state.value.tool,
                 SourceOf(l, TargetOf(cfg, job)), Succeeded(l, TargetOf(cfg, job)))
  }

  /** What each position of a task promises. */
  ghost predicate PcOk(rx: Engine, cfg: Config, s: System, task: Task) {
    match task.pc
    case Refreshing(prior) => prior == s.catalog
    case RefreshingAgain(prior) => prior == s.catalog
    case AdoptedList(_, reported) => task.job.ListJob? && reported == s.catalog.snapshot && s.catalog.listed
    case AdoptedCall(_, available, state) => StateOk(rx, cfg, s.ledger, task.job, available, state)
    case Captured(available, state) => StateOk(rx, cfg, s.ledger, task.job, available, state)
    case _ => true
  }

  /** A change adopted but not yet told is the business of whoever holds the sequence lock. */
  ghost predicate Pending(s: System) {
    s.sequenceLock.Some? && s.sequenceLock.value in s.tasks &&
    match s.tasks[s.sequenceLock.value].pc
    case AdoptedList(_, _) => true
    case AdoptedCall(changed, _, _) => changed
    case AdoptedAgain(changed) => changed
    case _ => false
  }

  ghost predicate Inv(rx: Engine, cfg: Config, s: System) {
    && LocksOk(s)
    && CatalogOk(rx, cfg, s.catalog, s.ledger)
    && WireOk(s.wire, s.catalog, s.ledger)
    && (forall t :: t in s.tasks ==> PcOk(rx, cfg, s, s.tasks[t]))
    && (forall i :: 0 <= i < |s.resolved| ==>
          ResolvedOk(rx, cfg, s.ledger.discoveries, s.resolved[i]))
    && (s.broken || Pending(s) || Announced(s.wire, s.catalog.snapshot.tools))
  }

  lemma FoundOrFailed(cfg: Config, c: Catalog, targets: set<string>, world: World, force: bool)
    ensures Found(cfg, c, targets, world, force).Keys !! Failed(cfg, c, targets, world, force)
  {
    hide Collected;
  }

  lemma AdoptKeepsCatalog(rx: Engine, cfg: Config, s: System, prior: Catalog, targets: set<string>, world: World,
                          force: bool,
                          mark: bool)
    requires prior == s.catalog && CatalogOk(rx, cfg, s.catalog, s.ledger)
    ensures var n := AdoptInto(rx, cfg, s, prior, targets, world, force, mark);
            && CatalogOk(rx, cfg, n.catalog, n.ledger)
            && s.ledger.history <= n.ledger.history && s.ledger.discoveries <= n.ledger.discoveries
            && (s.catalog.listed ==> n.catalog.listed) && (mark ==> n.catalog.listed)
  {
    hide StateFrom;
    hide Collected;
    hide NextTools;
    hide Found;
    hide Failed;
    hide Refines;
    hide RecordRefresh;
    var found, failed := Found(cfg, prior, targets, world, force), Failed(cfg, prior, targets, world, force);
    ToolsMatch(rx, cfg, prior.snapshot.tools, s.ledger.sources);
    var tools := NextTools(rx, cfg, prior.snapshot.tools, found);
    NextToolsRefines(rx, cfg, prior.snapshot.tools, s.ledger.sources, found);
    FoundOrFailed(cfg, prior, targets, world, force);
    SourcesStep(prior.freshTargets, s.ledger, found, failed, prior.snapshot.tools, tools);
    HistoryStep(s.ledger, found, failed, prior.snapshot, tools);
  }

  lemma HistoryStep(l: Ledger, found: map<string, Definitions>, failed: set<string>, before: Snapshot, after: Tools)
    requires |l.history| == before.generation + 1 && l.history[before.generation] == before.tools
    requires forall g :: 0 < g < |l.history| ==> l.history[g] != l.history[g - 1]
    ensures var h := RecordRefresh(l, found, failed, before.tools, after).history;
            && l.history <= h && h[|h| - 1] == after
            && |h| == (if after != before.tools then before.generation + 2 else before.generation + 1)
            && forall g :: 0 < g < |h| ==> h[g] != h[g - 1]
    ensures l.discoveries <= RecordRefresh(l, found, failed, before.tools, after).discoveries
  {}

  lemma ToolsMatch(rx: Engine, cfg: Config, tools: Tools, sources: map<string, Source>)
    requires Refines(rx, cfg, tools, sources)
    ensures tools.Keys == cfg.exposures.Keys
  {}

  lemma SourcesStep(freshTargets: set<string>, l: Ledger, found: map<string, Definitions>, failed: set<string>,
                    before: Tools, after: Tools)
    requires found.Keys !! failed
    requires freshTargets == (set t | t in l.lastOutcome && l.lastOutcome[t])
    requires forall t :: t in freshTargets ==> t in l.sources && l.sources[t].Discovered?
    requires forall t :: t in l.sources && l.sources[t].Discovered? ==> (t, l.sources[t].defs) in l.discoveries
    ensures var n := RecordRefresh(l, found, failed, before, after);
            var nextFresh := (freshTargets + found.Keys) - failed;
            && nextFresh == (set t | t in n.lastOutcome && n.lastOutcome[t])
            && (forall t :: t in nextFresh ==> t in n.sources && n.sources[t].Discovered?)
            && (forall t :: t in n.sources && n.sources[t].Discovered? ==> (t, n.sources[t].defs) in n.discoveries)
            && n.sources == NextSources(l.sources, found)
  {
    OutcomesStep(freshTargets, l.lastOutcome, found, failed);
    DiscoveriesStep(l.sources, l.discoveries, found);
  }

  lemma OutcomesStep(freshTargets: set<string>, outcome: map<string, bool>, found: map<string, Definitions>,
                     failed: set<string>)
    requires found.Keys !! failed
    requires freshTargets == (set t | t in outcome && outcome[t])
    ensures var next := outcome + (map t | t in found :: true) + (map t | t in failed :: false);
            (freshTargets + found.Keys) - failed == (set t | t in next && next[t])
  {}

  lemma DiscoveriesStep(sources: map<string, Source>, discoveries: set<(string, Definitions)>,
                        found: map<string, Definitions>)
    requires forall t :: t in sources && sources[t].Discovered? ==> (t, sources[t].defs) in discoveries
    ensures var next := sources + (map t | t in found :: Discovered(found[t]));
            forall t :: t in next && next[t].Discovered? ==>
                          (t, next[t].defs) in discoveries + (set u | u in found :: (u, found[u]))
  {
    forall t | t in found ensures (t, found[t]) in (set u | u in found :: (u, found[u])) {}
  }

  lemma ReadyFromLatest(rx: Engine, cfg: Config, discoveries: set<(string, Definitions)>, name: string, source: Source)
    requires name in cfg.exposures && source.Discovered? && (cfg.exposures[name].targetId, source.defs) in discoveries
    requires StateFrom(rx, cfg.exposures[name], source).Ready?
    ensures FromLatest(rx, cfg, discoveries, name, StateFrom(rx, cfg.exposures[name], source).tool, source, true)
  {
    hide Derive;
  }

  lemma AvailableIsFresh(rx: Engine, cfg: Config, s: System, target: string, world: World, mark: bool)
    requires s.catalog.snapshot.tools.Keys == cfg.exposures.Keys && target in cfg.targets
    requires target !in Failed(cfg, s.catalog, {target}, world, false)
    ensures target in AdoptInto(rx, cfg, s, s.catalog, {target}, world, false, mark).catalog.freshTargets
  {
    hide NextTools;
    hide Collected;
  }

  /** After a refresh that left a target available, a ready tool was projected from a discovery. */
  lemma AvailableIsDiscovered(rx: Engine, cfg: Config, s: System, name: string, world: World, mark: bool)
    requires cfg.WellFormed() && CatalogOk(rx, cfg, s.catalog, s.ledger) && name in cfg.exposures
    ensures var target := cfg.exposures[name].targetId;
            var n := AdoptInto(rx, cfg, s, s.catalog, {target}, world, false, mark);
            && name in n.catalog.snapshot.tools
            && (target !in Failed(cfg, s.catalog, {target}, world, false) && n.catalog.snapshot.tools[name].Ready? ==>
                  FromLatest(rx, cfg, n.ledger.discoveries, name, n.catalog.snapshot.tools[name].tool,
                             SourceOf(n.ledger, target), Succeeded(n.ledger, target)))
  {
    hide AdoptInto;
    hide FromLatest;
    hide StateFrom;
    hide Failed;
    var target := cfg.exposures[name].targetId;
    var n := AdoptInto(rx, cfg, s, s.catalog, {target}, world, false, mark);
    AdoptKeepsCatalog(rx, cfg, s, s.catalog, {target}, world, false, mark);
    if target !in Failed(cfg, s.catalog, {target}, world, false) && n.catalog.snapshot.tools[name].Ready? {
      AvailableIsFresh(rx, cfg, s, target, world, mark);
      ReadyFromLatest(rx, cfg, n.ledger.discoveries, name, n.ledger.sources[target]);
    }
  }

  // Every step keeps the invariant.

  /** Anything but a list response can be written without disturbing what responses promise. */
  lemma WriteQuietly(wire: seq<Message>, c: Catalog, l: Ledger, m: Message)
    requires WireOk(wire, c, l) && !m.ListResponse?
    ensures WireOk(wire + [m], c, l)
  {
    var w := wire + [m];
    assert forall i :: 0 <= i < |w| && w[i].ListResponse? ==> i < |wire| && w[i] == wire[i];
  }

  lemma WriteReply(wire: seq<Message>, c: Catalog, l: Ledger, t: TaskId)
    requires WireOk(wire, c, l)
    ensures WireOk(wire + [Reply(t)], c, l)
    ensures Heard(wire + [Reply(t)]) == Heard(wire)
  {
    hide WireOk;
    hide Heard;
    WriteQuietly(wire, c, l, Reply(t));
    HeardOne(wire, Reply(t));
  }

  lemma WriteNotice(wire: seq<Message>, c: Catalog, l: Ledger, changed: bool)
    requires WireOk(wire, c, l)
    ensures WireOk(wire + Notice(changed), c, l)
    ensures changed || Announced(wire, c.snapshot.tools) ==> Announced(wire + Notice(changed), c.snapshot.tools)
  {
    hide WireOk;
    hide Heard;
    WriteQuietly(wire, c, l, ListChanged);
    HeardOne(wire, ListChanged);
    if !changed { assert wire + Notice(changed) == wire; }
  }

  lemma WriteListing(rx: Engine, cfg: Config, wire: seq<Message>, c: Catalog, l: Ledger)
    requires WireOk(wire, c, l) && CatalogOk(rx, cfg, c, l) && c.listed
    ensures WireOk(wire + [ListResponse(c.snapshot)], c, l)
    ensures Announced(wire + [ListResponse(c.snapshot)], c.snapshot.tools)
  {
    hide Refines;
    HeardOne(wire, ListResponse(c.snapshot));
  }

  lemma WireLater(wire: seq<Message>, c: Catalog, l: Ledger, c': Catalog, l': Ledger)
    requires WireOk(wire, c, l) && l.history <= l'.history && (c.listed ==> c'.listed)
    ensures WireOk(wire, c', l')
  {}

  /** A task moves; no other task's position is disturbed. */
  lemma MoveTask(rx: Engine, cfg: Config, s: System, n: System, t: TaskId, pc: Pc)
    requires LocksOk(s) && t in s.tasks && forall u :: u in s.tasks ==> PcOk(rx, cfg, s, s.tasks[u])
    requires n.tasks == s.tasks[t := s.tasks[t].(pc := pc)]
    requires HoldsSequence(pc) <==> n.sequenceLock == Some(t)
    requires HoldsRefresh(pc) <==> n.refreshLock == Some(t)
    requires n.sequenceLock == s.sequenceLock
             || (s.sequenceLock in {None, Some(t)} && n.sequenceLock in {None, Some(t)})
    requires n.refreshLock == s.refreshLock || (s.refreshLock in {None, Some(t)} && n.refreshLock in {None, Some(t)})
    requires HoldsSequence(s.tasks[t].pc) || (n.catalog == s.catalog && n.ledger == s.ledger)
    requires PcOk(rx, cfg, n, n.tasks[t])
    ensures LocksOk(n) && forall u :: u in n.tasks ==> PcOk(rx, cfg, n, n.tasks[u])
  {
    hide StateOk;
    forall u | u in n.tasks ensures PcOk(rx, cfg, n, n.tasks[u]) {
      if u != t {
        assert PcOk(rx, cfg, s, s.tasks[u]);
        if HoldsSequence(s.tasks[t].pc) { assert !HoldsSequence(s.tasks[u].pc); }
      }
    }
  }

  ghost predicate ResolvedOk(rx: Engine, cfg: Config, discoveries: set<(string, Definitions)>, r: Resolution) {
    && FromLatest(rx, cfg, discoveries, r.name, r.tool, r.source, r.succeeded)
    && r.call == Resolve(rx, cfg.exposures, cfg.targets, r.name, r.tool, r.args)
  }

  lemma ResolvedLater(rx: Engine, cfg: Config, before: set<(string, Definitions)>, after: set<(string, Definitions)>,
                      r: Resolution)
    requires ResolvedOk(rx, cfg, before, r) && before <= after
    ensures ResolvedOk(rx, cfg, after, r)
  {
    hide Derive;
    hide Resolve;
  }

  /** A step that leaves the catalog alone keeps the invariant if it keeps its own promises. */
  lemma Settle(rx: Engine, cfg: Config, s: System, n: System, t: TaskId, pc: Pc)
    requires Inv(rx, cfg, s) && t in s.tasks
    requires n == s.(tasks := s.tasks[t := s.tasks[t].(pc := pc)], sequenceLock := n.sequenceLock,
                     refreshLock := n.refreshLock, wire := n.wire, broken := n.broken)
    requires HoldsSequence(pc) <==> n.sequenceLock == Some(t)
    requires HoldsRefresh(pc) <==> n.refreshLock == Some(t)
    requires n.sequenceLock == s.sequenceLock
             || (s.sequenceLock in {None, Some(t)} && n.sequenceLock in {None, Some(t)})
    requires n.refreshLock == s.refreshLock || (s.refreshLock in {None, Some(t)} && n.refreshLock in {None, Some(t)})
    requires PcOk(rx, cfg, n, n.tasks[t])
    requires WireOk(n.wire, s.catalog, s.ledger)
    requires n.broken || Pending(n) || Announced(n.wire, s.catalog.snapshot.tools)
    ensures Inv(rx, cfg, n)
  {
    hide CatalogOk;
    hide WireOk;
    hide ResolvedOk;
    hide LocksOk;
    hide PcOk;
    hide Announced;
    hide HoldsSequence;
    hide HoldsRefresh;
    MoveTask(rx, cfg, s, n, t, pc);
  }

  /** No change is pending while the lock is free or its holder is at a position that owes nothing. */
  lemma NotPending(s: System, t: TaskId)
    requires LocksOk(s) && t in s.tasks
    requires s.sequenceLock == Some(t) ==>
               !s.tasks[t].pc.AdoptedList? && !s.tasks[t].pc.AdoptedCall? && !s.tasks[t].pc.AdoptedAgain?
    requires s.sequenceLock in {None, Some(t)}
    ensures !Pending(s)
  {}

  lemma QuietSteps(rx: Engine, cfg: Config, s: System, t: TaskId, world: World, notified: bool, written: bool)
    requires Inv(rx, cfg, s) && t in s.tasks
    requires s.tasks[t].pc in {Sequenced, Executing, QueuedAgain, Finished}
    ensures Inv(rx, cfg, StepTask(rx, cfg, s, t, world, notified, written))
  {
    hide CatalogOk;
    hide WireOk;
    hide ResolvedOk;
    hide LocksOk;
    hide Announced;
    hide AdoptInto;
    hide Resolve;
    hide StateOk;
    var n := StepTask(rx, cfg, s, t, world, notified, written);
    LocksAt(s, t);
    if n != s {
      HolderStays(s, n, t);
      Settle(rx, cfg, s, n, t, n.tasks[t].pc);
    }
  }

  lemma HolderStays(s: System, n: System, t: TaskId)
    requires LocksOk(s) && t in s.tasks
    requires s.tasks[t].pc in {Sequenced, Executing, QueuedAgain}
    requires t in n.tasks && n.tasks == s.tasks[t := n.tasks[t]]
    requires n.sequenceLock == s.sequenceLock || (s.sequenceLock == None && n.sequenceLock == Some(t))
    ensures Pending(s) ==> Pending(n)
  {}

  lemma RequestStart(rx: Engine, cfg: Config, s: System, t: TaskId, world: World, notified: bool, written: bool)
    requires Inv(rx, cfg, s) && t in s.tasks && s.tasks[t].pc.Queued?
    ensures Inv(rx, cfg, StepTask(rx, cfg, s, t, world, notified, written))
  {
    hide CatalogOk;
    hide WireOk;
    hide ResolvedOk;
    hide LocksOk;
    hide Announced;
    hide AdoptInto;
    hide Resolve;
    hide StateOk;
    var n := StepTask(rx, cfg, s, t, world, notified, written);
    LocksAt(s, t);
    WriteReply(s.wire, s.catalog, s.ledger, t);
    HeardSame(s.wire, t, s.catalog.snapshot.tools);
    if n != s {
      QueuedHolder(s, n, t);
      Settle(rx, cfg, s, n, t, n.tasks[t].pc);
    }
  }

  lemma QueuedHolder(s: System, n: System, t: TaskId)
    requires LocksOk(s) && t in s.tasks && s.tasks[t].pc.Queued?
    requires t in n.tasks && n.tasks == s.tasks[t := n.tasks[t]]
    requires n.sequenceLock == s.sequenceLock || (s.sequenceLock == None && n.sequenceLock == Some(t))
    ensures Pending(s) ==> Pending(n)
  {}

  /** The end of a critical section: answers, notices, and the release. */
  lemma TellSteps(rx: Engine, cfg: Config, s: System, t: TaskId, world: World, notified: bool, written: bool)
    requires Inv(rx, cfg, s) && t in s.tasks
    requires s.tasks[t].pc.AdoptedList? || s.tasks[t].pc.Listed? || s.tasks[t].pc.AdoptedCall?
    ensures Inv(rx, cfg, StepTask(rx, cfg, s, t, world, notified, written))
  {
    hide CatalogOk;
    hide WireOk;
    hide ResolvedOk;
    hide LocksOk;
    hide Announced;
    hide AdoptInto;
    hide Resolve;
    hide StateOk;
    hide Notice;
    var n := StepTask(rx, cfg, s, t, world, notified, written);
    LocksAt(s, t);
    assert PcOk(rx, cfg, s, s.tasks[t]);
    match s.tasks[t].pc {
      case AdoptedList(changed, reported) =>
        WriteListing(rx, cfg, s.wire, s.catalog, s.ledger);
      case Listed(changed) =>
        NotPending(s, t);
        WriteNotice(s.wire, s.catalog, s.ledger, changed);
      case AdoptedCall(changed, available, state) =>
        WriteNotice(s.wire, s.catalog, s.ledger, changed);
    }
    Settle(rx, cfg, s, n, t, n.tasks[t].pc);
  }

  lemma NoNotification(rx: Engine, cfg: Config, s: System, t: TaskId, world: World, notified: bool, written: bool)
    requires Inv(rx, cfg, s) && t in s.tasks && s.tasks[t].pc.SequencedAgain?
    ensures Inv(rx, cfg, StepTask(rx, cfg, s, t, world, notified, written))
  {
    hide CatalogOk;
    hide WireOk;
    hide ResolvedOk;
    hide LocksOk;
    hide Announced;
    hide AdoptInto;
    hide Resolve;
    hide StateOk;
    hide Notice;
    var n := StepTask(rx, cfg, s, t, world, notified, written);
    LocksAt(s, t);
    NotPending(s, t);
    WriteReply(s.wire, s.catalog, s.ledger, t);
    HeardSame(s.wire, t, s.catalog.snapshot.tools);
    if n != s { Settle(rx, cfg, s, n, t, n.tasks[t].pc); }
  }

  lemma WriteNoticeAndReply(wire: seq<Message>, c: Catalog, l: Ledger, changed: bool, t: TaskId)
    requires WireOk(wire, c, l)
    ensures WireOk(wire + (Notice(changed) + [Reply(t)]), c, l)
    ensures changed || Announced(wire, c.snapshot.tools) ==>
              Announced(wire + (Notice(changed) + [Reply(t)]), c.snapshot.tools)
  {
    hide WireOk;
    hide Announced;
    hide Notice;
    WriteNotice(wire, c, l, changed);
    WriteReply(wire + Notice(changed), c, l, t);
    HeardSame(wire + Notice(changed), t, c.snapshot.tools);
    assert wire + (Notice(changed) + [Reply(t)]) == wire + Notice(changed) + [Reply(t)];
  }

  /** The adopted change is the pending one, so it is told unless the catalog was already announced. */
  lemma PendingAgain(s: System, t: TaskId)
    requires LocksOk(s) && t in s.tasks && s.tasks[t].pc.AdoptedAgain?
    ensures s.sequenceLock == Some(t) && s.refreshLock != Some(t)
    ensures Pending(s) <==> s.tasks[t].pc.changed
  {}

  lemma TellAgain(rx: Engine, cfg: Config, s: System, t: TaskId, world: World, notified: bool, written: bool)
    requires Inv(rx, cfg, s) && t in s.tasks && s.tasks[t].pc.AdoptedAgain?
    ensures Inv(rx, cfg, StepTask(rx, cfg, s, t, world, notified, written))
  {
    hide CatalogOk;
    hide WireOk;
    hide ResolvedOk;
    hide LocksOk;
    hide Announced;
    hide Pending;
    hide AdoptInto;
    hide Resolve;
    hide Notice;
    var n := StepTask(rx, cfg, s, t, world, notified, written);
    PendingAgain(s, t);
    WriteNoticeAndReply(s.wire, s.catalog, s.ledger, s.tasks[t].pc.changed, t);
    Settle(rx, cfg, s, n, t, Finished);
  }

  /** A captured call resolves against the state it holds, which came from the latest discovery. */
  lemma ResolveRecords(rx: Engine, cfg: Config, s: System, t: TaskId, world: World, notified: bool, written: bool)
    requires t in s.tasks && s.tasks[t].pc.Captured? && PcOk(rx, cfg, s, s.tasks[t])
    requires forall i :: 0 <= i < |s.resolved| ==> ResolvedOk(rx, cfg, s.ledger.discoveries, s.resolved[i])
    ensures var n := StepTask(rx, cfg, s, t, world, notified, written);
            forall i :: 0 <= i < |n.resolved| ==> ResolvedOk(rx, cfg, s.ledger.discoveries, n.resolved[i])
  {
    hide FromLatest;
    hide AdoptInto;
    hide Resolve;
    hide SourceOf;
    hide Succeeded;
    hide TargetOf;
    var n := StepTask(rx, cfg, s, t, world, notified, written);
    forall i | 0 <= i < |n.resolved| ensures ResolvedOk(rx, cfg, s.ledger.discoveries, n.resolved[i]) {
      if i < |s.resolved| { assert n.resolved[i] == s.resolved[i]; }
    }
  }

  lemma CapturedSteps(rx: Engine, cfg: Config, s: System, t: TaskId, world: World, notified: bool, written: bool)
    requires t in s.tasks && s.tasks[t].pc.Captured?
    ensures var n := StepTask(rx, cfg, s, t, world, notified, written);
            var recorded := s.(resolved := n.resolved);
            n == Release(recorded, t, Executing) || n == Write(Release(recorded, t, Finished), [Reply(t)])
  {
    hide AdoptInto;
    hide Resolve;
    hide SourceOf;
    hide Succeeded;
    hide TargetOf;
  }

  lemma ResolveStep(rx: Engine, cfg: Config, s: System, t: TaskId, world: World, notified: bool, written: bool)
    requires Inv(rx, cfg, s) && t in s.tasks && s.tasks[t].pc.Captured?
    ensures Inv(rx, cfg, StepTask(rx, cfg, s, t, world, notified, written))
  {
    hide StepTask;
    hide CatalogOk;
    hide WireOk;
    hide ResolvedOk;
    hide LocksOk;
    hide Announced;
    hide Pending;
    var n := StepTask(rx, cfg, s, t, world, notified, written);
    LocksAt(s, t);
    NotPending(s, t);
    CapturedSteps(rx, cfg, s, t, world, notified, written);
    WriteReply(s.wire, s.catalog, s.ledger, t);
    HeardSame(s.wire, t, s.catalog.snapshot.tools);
    ResolveRecords(rx, cfg, s, t, world, notified, written);
    ResolvedAdded(rx, cfg, s, n.resolved);
    Settle(rx, cfg, s.(resolved := n.resolved), n, t, n.tasks[t].pc);
  }

  lemma ResolvedAdded(rx: Engine, cfg: Config, s: System, resolved: seq<Resolution>)
    requires Inv(rx, cfg, s)
    requires forall i :: 0 <= i < |resolved| ==> ResolvedOk(rx, cfg, s.ledger.discoveries, resolved[i])
    ensures Inv(rx, cfg, s.(resolved := resolved))
  {
    hide CatalogOk;
    hide WireOk;
    hide ResolvedOk;
    hide Announced;
    hide StateOk;
    assert forall t :: t in s.tasks ==> PcOk(rx, cfg, s, s.tasks[t]) ==>
             PcOk(rx, cfg, s.(resolved := resolved), s.tasks[t]);
  }

  lemma HeardSame(wire: seq<Message>, t: TaskId, tools: Tools)
    ensures Announced(wire + [Reply(t)], tools) <==> Announced(wire, tools)
  {
    HeardOne(wire, Reply(t));
  }

  lemma LocksAt(s: System, t: TaskId)
    requires LocksOk(s) && t in s.tasks
    ensures HoldsSequence(s.tasks[t].pc) <==> s.sequenceLock == Some(t)
    ensures HoldsRefresh(s.tasks[t].pc) <==> s.refreshLock == Some(t)
  {}

  /** Adoption under both locks: the catalog read is the catalog found, and a change becomes pending. */
  lemma AdoptStep(rx: Engine, cfg: Config, s: System, t: TaskId, world: World, notified: bool, written: bool)
    requires cfg.WellFormed()
    requires Inv(rx, cfg, s) && t in s.tasks && HoldsRefresh(s.tasks[t].pc)
    ensures Inv(rx, cfg, StepTask(rx, cfg, s, t, world, notified, written))
  {
    hide CatalogOk;
    hide WireOk;
    hide ResolvedOk;
    hide LocksOk;
    hide Announced;
    hide Resolve;
    hide AdoptInto;
    hide FromLatest;
    hide StateOk;
    hide Failed;
    hide Found;
    hide NextTools;
    hide ExposedTargets;
    var job := s.tasks[t].job;
    assert PcOk(rx, cfg, s, s.tasks[t]);
    CatalogDomain(rx, cfg, s.catalog, s.ledger);
    var n := StepTask(rx, cfg, s, t, world, notified, written);
    if s.tasks[t].pc.RefreshingAgain? {
      AdoptFrame(rx, cfg, s, {TargetOf(cfg, job)}, world, true, false);
      AdoptAnd(rx, cfg, s, n, t, {TargetOf(cfg, job)}, world, true, false);
    } else if job.ListJob? {
      AdoptFrame(rx, cfg, s, ExposedTargets(cfg), world, false, true);
      AdoptKeepsCatalog(rx, cfg, s, s.catalog, ExposedTargets(cfg), world, false, true);
      AdoptAnd(rx, cfg, s, n, t, ExposedTargets(cfg), world, false, true);
    } else {
      AdoptFrame(rx, cfg, s, {TargetOf(cfg, job)}, world, false, false);
      CallState(rx, cfg, s, job, world);
      AdoptAnd(rx, cfg, s, n, t, {TargetOf(cfg, job)}, world, false, false);
    }
  }

  lemma CallState(rx: Engine, cfg: Config, s: System, job: Job, world: World)
    requires cfg.WellFormed() && CatalogOk(rx, cfg, s.catalog, s.ledger) && job.CallJob?
    requires s.catalog.snapshot.tools.Keys == cfg.exposures.Keys
    ensures var target := TargetOf(cfg, job);
            var m := AdoptInto(rx, cfg, s, s.catalog, {target}, world, false, false);
            StateOk(rx, cfg, m.ledger, job, target !in Failed(cfg, s.catalog, {target}, world, false),
                    Get(m.catalog.snapshot.tools, job.name))
  {
    hide CatalogOk;
    hide AdoptInto;
    hide FromLatest;
    hide Failed;
    var m := AdoptInto(rx, cfg, s, s.catalog, {TargetOf(cfg, job)}, world, false, false);
    AdoptKeepsCatalog(rx, cfg, s, s.catalog, {TargetOf(cfg, job)}, world, false, false);
    CatalogDomain(rx, cfg, m.catalog, m.ledger);
    if job.name in cfg.exposures { AvailableIsDiscovered(rx, cfg, s, job.name, world, false); }
  }

  lemma AdoptAnd(rx: Engine, cfg: Config, s: System, n: System, t: TaskId, targets: set<string>, world: World,
                 force: bool, mark: bool)
    requires cfg.WellFormed() && Inv(rx, cfg, s) && t in s.tasks && HoldsRefresh(s.tasks[t].pc)
    requires s.catalog.snapshot.tools.Keys == cfg.exposures.Keys
    requires t in n.tasks
    requires var m := AdoptInto(rx, cfg, s, s.catalog, targets, world, force, mark);
             n == SetPc(m.(tasks := s.tasks), t, n.tasks[t].pc)
    requires PcOk(rx, cfg, n, n.tasks[t]) && HoldsSequence(n.tasks[t].pc) && !HoldsRefresh(n.tasks[t].pc)
    requires var changed := s.catalog.listed && n.catalog.snapshot.tools != s.catalog.snapshot.tools;
             match n.tasks[t].pc
             case AdoptedList(_, _) => true
             case AdoptedCall(c, _, _) => c == changed
             case AdoptedAgain(c) => c == changed
             case _ => false
    ensures Inv(rx, cfg, n)
  {
    hide CatalogOk;
    hide WireOk;
    hide ResolvedOk;
    hide LocksOk;
    hide PcOk;
    hide Announced;
    hide AdoptInto;
    var m := AdoptInto(rx, cfg, s, s.catalog, targets, world, force, mark);
    LocksAt(s, t);
    AdoptFrame(rx, cfg, s, targets, world, force, mark);
    AdoptKeepsCatalog(rx, cfg, s, s.catalog, targets, world, force, mark);
    WireLater(s.wire, s.catalog, s.ledger, m.catalog, m.ledger);
    forall i | 0 <= i < |s.resolved| ensures ResolvedOk(rx, cfg, m.ledger.discoveries, s.resolved[i]) {
      ResolvedLater(rx, cfg, s.ledger.discoveries, m.ledger.discoveries, s.resolved[i]);
    }
    NotPending(s, t);
    PendingAfter(rx, cfg, s, n, t);
    MoveTask(rx, cfg, s, n, t, n.tasks[t].pc);
  }

  lemma CatalogDomain(rx: Engine, cfg: Config, c: Catalog, l: Ledger)
    requires CatalogOk(rx, cfg, c, l)
    ensures c.snapshot.tools.Keys == cfg.exposures.Keys
  {}

  lemma AdoptFrame(rx: Engine, cfg: Config, s: System, targets: set<string>, world: World, force: bool, mark: bool)
    requires s.catalog.snapshot.tools.Keys == cfg.exposures.Keys
    ensures var n := AdoptInto(rx, cfg, s, s.catalog, targets, world, force, mark);
            n == s.(catalog := n.catalog, refreshLock := None, ledger := n.ledger)
  {}

  /** Whatever this adoption changed is owed to the client, if the client was ever given a list. */
  lemma PendingAfter(rx: Engine, cfg: Config, s: System, n: System, t: TaskId)
    requires t in n.tasks && n.sequenceLock == Some(t)
    requires WireOk(s.wire, s.catalog, s.ledger) && n.wire == s.wire
    requires s.broken || Announced(s.wire, s.catalog.snapshot.tools)
    requires n.broken == s.broken
    requires var changed := s.catalog.listed && n.catalog.snapshot.tools != s.catalog.snapshot.tools;
             match n.tasks[t].pc
             case AdoptedList(_, _) => true
             case AdoptedCall(c, _, _) => c == changed
             case AdoptedAgain(c) => c == changed
             case _ => false
    ensures n.broken || Pending(n) || Announced(n.wire, n.catalog.snapshot.tools)
  {
    if !s.catalog.listed { HeardNothing(s.wire); }
  }

  lemma ArriveStep(rx: Engine, cfg: Config, s: System, t: TaskId, job: Job)
    requires Inv(rx, cfg, s) && t !in s.tasks
    ensures Inv(rx, cfg, s.(tasks := s.tasks[t := Task(job, Queued)]))
  {
    hide CatalogOk;
    hide WireOk;
    hide ResolvedOk;
    hide Announced;
    hide StateOk;
    var n := s.(tasks := s.tasks[t := Task(job, Queued)]);
    forall u | u in n.tasks ensures PcOk(rx, cfg, n, n.tasks[u]) {
      if u != t { assert PcOk(rx, cfg, s, s.tasks[u]); }
    }
  }

  lemma StepKeeps(rx: Engine, cfg: Config, s: System, c: Choice)
    requires cfg.WellFormed() && Inv(rx, cfg, s)
    ensures Inv(rx, cfg, Next(rx, cfg, s, c))
  {
    hide Inv;
    hide StepTask;
    match c {
      case Arrive(t, job) => if t !in s.tasks { ArriveStep(rx, cfg, s, t, job); }
      case Advance(t, world, notified, written) =>
        if t in s.tasks {
          match s.tasks[t].pc {
            case Queued => RequestStart(rx, cfg, s, t, world, notified, written);
            case Sequenced => QuietSteps(rx, cfg, s, t, world, notified, written);
            case Refreshing(_) => AdoptStep(rx, cfg, s, t, world, notified, written);
            case AdoptedList(_, _) => TellSteps(rx, cfg, s, t, world, notified, written);
            case Listed(_) => TellSteps(rx, cfg, s, t, world, notified, written);
            case AdoptedCall(_, _, _) => TellSteps(rx, cfg, s, t, world, notified, written);
            case Captured(_, _) => ResolveStep(rx, cfg, s, t, world, notified, written);
            case Executing => QuietSteps(rx, cfg, s, t, world, notified, written);
            case QueuedAgain => QuietSteps(rx, cfg, s, t, world, notified, written);
            case SequencedAgain => NoNotification(rx, cfg, s, t, world, notified, written);
            case RefreshingAgain(_) => AdoptStep(rx, cfg, s, t, world, notified, written);
            case AdoptedAgain(_) => TellAgain(rx, cfg, s, t, world, notified, written);
            case Finished => QuietSteps(rx, cfg, s, t, world, notified, written);
          }
        }
    }
  }

  lemma StartInv(rx: Engine, cfg: Config, caches: map<string, Definitions>)
    requires cfg.WellFormed()
    ensures Inv(rx, cfg, Start(rx, cfg, caches))
  {
    hide StateFrom;
  }

  /** The invariant holds in every state that any interleaving of requests can reach. */
  lemma {:induction false} RunInv(rx: Engine, cfg: Config, caches: map<string, Definitions>, choices: seq<Choice>)
    requires cfg.WellFormed()
    ensures Inv(rx, cfg, Run(rx, cfg, caches, choices))
  {
    hide Inv;
    hide Next;
    if choices == [] {
      StartInv(rx, cfg, caches);
    } else {
      RunInv(rx, cfg, caches, choices[..|choices| - 1]);
      StepKeeps(rx, cfg, Run(rx, cfg, caches, choices[..|choices| - 1]), choices[|choices| - 1]);
    }
  }

  // The results, over every run.

  /**
   * No silent change: whenever the sequence lock is free, a catalog that differs from the last
   * list response on the wire is followed there by a list_changed.
   */
  lemma NoSilentChange(rx: Engine, cfg: Config, caches: map<string, Definitions>, choices: seq<Choice>, i: nat)
    requires cfg.WellFormed()
    requires var s := Run(rx, cfg, caches, choices);
             s.sequenceLock.None? && !s.broken && LastListing(s.wire, i)
             && s.wire[i].snapshot.tools != s.catalog.snapshot.tools
    ensures NoticeAfter(Run(rx, cfg, caches, choices).wire, i)
  {
    hide CatalogOk;
    hide WireOk;
    hide Run;
    var s := Run(rx, cfg, caches, choices);
    RunInv(rx, cfg, caches, choices);
    HeardAt(s.wire, i);
  }

  /** List responses are whole generations of one history, in order, and consecutive ones differ. */
  lemma ResponsesFollowGenerations(rx: Engine, cfg: Config, caches: map<string, Definitions>, choices: seq<Choice>,
                                   i: nat, j: nat)
    requires cfg.WellFormed()
    requires var wire := Run(rx, cfg, caches, choices).wire;
             i < j < |wire| && wire[i].ListResponse? && wire[j].ListResponse?
    ensures var s := Run(rx, cfg, caches, choices);
            var h := s.ledger.history;
            && |h| == s.catalog.snapshot.generation + 1 && h[s.catalog.snapshot.generation] == s.catalog.snapshot.tools
            && s.wire[i].snapshot.generation <= s.wire[j].snapshot.generation <= s.catalog.snapshot.generation
            && s.wire[i].snapshot.tools == h[s.wire[i].snapshot.generation]
            && (forall g :: 0 < g < |h| ==> h[g] != h[g - 1])
  {
    hide Run;
    hide Announced;
    hide LocksOk;
    hide PcOk;
    hide ResolvedOk;
    hide Refines;
    RunInv(rx, cfg, caches, choices);
  }

  /** The choice at `k` is the step of a list request that refreshed every exposure and reported this snapshot. */
  ghost predicate ListedBy(rx: Engine, cfg: Config, caches: map<string, Definitions>, choices: seq<Choice>, k: nat,
                           snapshot: Snapshot)
  {
    && k < |choices| && choices[k].Advance?
    && var before := Run(rx, cfg, caches, choices[..k]);
    && var after := Run(rx, cfg, caches, choices[..k + 1]);
    && choices[k].task in before.tasks && before.tasks[choices[k].task].job.ListJob?
    && snapshot == after.catalog.snapshot
    && AllRefreshed(rx, cfg, before.catalog, after.catalog, choices[k].world)
  }

  ghost predicate Reported(rx: Engine, cfg: Config, caches: map<string, Definitions>, choices: seq<Choice>,
                           snapshot: Snapshot)
  {
    exists k :: 0 <= k < |choices| && ListedBy(rx, cfg, caches, choices, k, snapshot)
  }

  lemma ReportedLater(rx: Engine, cfg: Config, caches: map<string, Definitions>, front: seq<Choice>, c: Choice,
                      snapshot: Snapshot)
    requires Reported(rx, cfg, caches, front, snapshot)
    ensures Reported(rx, cfg, caches, front + [c], snapshot)
  {
    hide Run;
    hide AllRefreshed;
    var k :| 0 <= k < |front| && ListedBy(rx, cfg, caches, front, k, snapshot);
    assert (front + [c])[..k] == front[..k] && (front + [c])[..k + 1] == front[..k + 1];
    assert ListedBy(rx, cfg, caches, front + [c], k, snapshot);
  }

  lemma ReportedNow(rx: Engine, cfg: Config, caches: map<string, Definitions>, front: seq<Choice>, c: Choice)
    requires c.Advance?
    requires var s := Run(rx, cfg, caches, front);
             && c.task in s.tasks && s.tasks[c.task].job.ListJob?
             && AllRefreshed(rx, cfg, s.catalog, Next(rx, cfg, s, c).catalog, c.world)
    ensures Reported(rx, cfg, caches, front + [c], Next(rx, cfg, Run(rx, cfg, caches, front), c).catalog.snapshot)
  {
    hide Next;
    hide AllRefreshed;
    var choices := front + [c];
    assert choices[..|front|] == front && choices[..|front| + 1] == choices;
    assert ListedBy(rx, cfg, caches, choices, |front|, Next(rx, cfg, Run(rx, cfg, caches, front), c).catalog.snapshot);
  }

  /** A list request reaches its answer only by a refresh of every exposure. */
  lemma ListAdopts(rx: Engine, cfg: Config, s: System, c: Choice, t: TaskId)
    requires cfg.WellFormed() && Inv(rx, cfg, s)
    requires t in Next(rx, cfg, s, c).tasks && Next(rx, cfg, s, c).tasks[t].pc.AdoptedList?
    ensures var n := Next(rx, cfg, s, c);
            || (t in s.tasks && s.tasks[t].pc == n.tasks[t].pc)
            || (&& c.Advance? && c.task in s.tasks && s.tasks[c.task].job.ListJob?
                && n.tasks[t].pc.reported == n.catalog.snapshot
                && AllRefreshed(rx, cfg, s.catalog, n.catalog, c.world))
  {
    hide Inv;
    hide StepTask;
    hide AllRefreshed;
    if c.Advance? && c.task in s.tasks {
      OnlyOneMoves(rx, cfg, s, c.task, c.world, c.notified, c.written);
      if t == c.task { ListStep(rx, cfg, s, t, c.world, c.notified, c.written); }
    }
  }

  /** No task but one is touched. */
  ghost predicate Moves(s: System, n: System, t: TaskId) {
    t in n.tasks && n.tasks == s.tasks[t := n.tasks[t]]
  }

  lemma SetPcMoves(s: System, t: TaskId)
    requires t in s.tasks
    ensures forall m: System, pc :: m.tasks == s.tasks ==> Moves(s, SetPc(m, t, pc), t)
    ensures Moves(s, s, t)
  {
    assert s.tasks == s.tasks[t := s.tasks[t]];
  }

  lemma MovesByTasks(s: System, t: TaskId)
    ensures forall n: System, m: System :: n.tasks == m.tasks && Moves(s, m, t) ==> Moves(s, n, t)
  {}

  lemma OnlyOneMoves(rx: Engine, cfg: Config, s: System, t: TaskId, world: World, notified: bool, written: bool)
    requires t in s.tasks
    ensures Moves(s, StepTask(rx, cfg, s, t, world, notified, written), t)
  {
    hide Resolve;
    hide AdoptInto;
    hide ExposedTargets;
    hide Failed;
    hide SourceOf;
    hide Succeeded;
    hide SetPc;
    hide Moves;
    hide Notice;
    AdoptLeavesTasks(rx, cfg, s);
    SetPcMoves(s, t);
    MovesByTasks(s, t);
  }

  lemma AdoptLeavesTasks(rx: Engine, cfg: Config, s: System)
    ensures forall prior: Catalog, targets, world, force, mark :: prior.snapshot.tools.Keys == cfg.exposures.Keys ==>
              AdoptInto(rx, cfg, s, prior, targets, world, force, mark).tasks == s.tasks
              && AdoptInto(rx, cfg, s, prior, targets, world, force, mark).wire == s.wire
  {
    hide RefreshFrom;
    hide NextTools;
    hide Found;
    hide Failed;
  }

  lemma ListStep(rx: Engine, cfg: Config, s: System, t: TaskId, world: World, notified: bool, written: bool)
    requires cfg.WellFormed() && Inv(rx, cfg, s) && t in s.tasks
    requires var n := StepTask(rx, cfg, s, t, world, notified, written); t in n.tasks && n.tasks[t].pc.AdoptedList?
    ensures var n := StepTask(rx, cfg, s, t, world, notified, written);
            || s.tasks[t].pc == n.tasks[t].pc
            || (&& s.tasks[t].job.ListJob? && n.tasks[t].pc.reported == n.catalog.snapshot
                && AllRefreshed(rx, cfg, s.catalog, n.catalog, world))
  {
    hide CatalogOk;
    hide WireOk;
    hide LocksOk;
    hide ResolvedOk;
    hide StateOk;
    hide Announced;
    hide Pending;
    hide Resolve;
    hide AdoptInto;
    hide ExposedTargets;
    hide Failed;
    hide SourceOf;
    hide Succeeded;
    hide AllRefreshed;
    hide Refresh;
    hide HoldsSequence;
    hide HoldsRefresh;
    hide Notice;
    hide Config.WellFormed;
    AdoptLeavesTasks(rx, cfg, s);
    assert PcOk(rx, cfg, s, s.tasks[t]);
    CatalogDomain(rx, cfg, s.catalog, s.ledger);
    ListRefreshes(rx, cfg, s.catalog, world);
    AdoptIsRefresh(rx, cfg, s, ExposedTargets(cfg), world, false, true);
  }

  lemma AdoptIsRefresh(rx: Engine, cfg: Config, s: System, targets: set<string>, world: World, force: bool, mark: bool)
    requires s.catalog.snapshot.tools.Keys == cfg.exposures.Keys
    ensures AdoptInto(rx, cfg, s, s.catalog, targets, world, force, mark).catalog ==
            Refresh(rx, cfg, s.catalog, targets, world, force, mark)
  {
    hide RefreshFrom;
    hide NextTools;
    hide Found;
    hide Failed;
  }

  /** The wire grows by messages that are not list responses. */
  ghost predicate Quiet(before: seq<Message>, after: seq<Message>) {
    && before <= after
    && forall i :: |before| <= i < |after| ==> !after[i].ListResponse?
  }

  lemma QuietWrites(s: System, t: TaskId, changed: bool)
    ensures forall m: System :: m.wire == s.wire ==> Quiet(s.wire, m.wire)
    ensures forall m: System :: m.wire == s.wire ==> Quiet(s.wire, Write(m, [Reply(t)]).wire)
    ensures forall m: System :: m.wire == s.wire ==> Quiet(s.wire, Write(m, Notice(changed)).wire)
    ensures forall m: System :: m.wire == s.wire ==> Quiet(s.wire, Write(m, Notice(changed) + [Reply(t)]).wire)
  {}

  lemma OthersWriteQuietly(rx: Engine, cfg: Config, s: System, t: TaskId, world: World, notified: bool, written: bool)
    requires t in s.tasks && !s.tasks[t].pc.AdoptedList?
    ensures Quiet(s.wire, StepTask(rx, cfg, s, t, world, notified, written).wire)
  {
    hide Resolve;
    hide AdoptInto;
    hide ExposedTargets;
    hide Failed;
    hide SourceOf;
    hide Succeeded;
    hide Quiet;
    hide Write;
    hide Notice;
    AdoptLeavesTasks(rx, cfg, s);
    QuietWrites(s, t, true);
    QuietWrites(s, t, false);
  }

  /** A list response is written only for the snapshot its request adopted. */
  lemma ListWrites(rx: Engine, cfg: Config, s: System, c: Choice, i: nat)
    requires i < |Next(rx, cfg, s, c).wire| && Next(rx, cfg, s, c).wire[i].ListResponse?
    ensures var n := Next(rx, cfg, s, c);
            || (i < |s.wire| && n.wire[i] == s.wire[i])
            || (c.task in s.tasks && s.tasks[c.task].pc.AdoptedList?
                && s.tasks[c.task].pc.reported == n.wire[i].snapshot)
  {
    hide StepTask;
    if c.Advance? && c.task in s.tasks {
      if s.tasks[c.task].pc.AdoptedList? {
        ListTells(rx, cfg, s, c.task, c.world, c.notified, c.written);
      } else {
        OthersWriteQuietly(rx, cfg, s, c.task, c.world, c.notified, c.written);
      }
    }
  }

  lemma ListTells(rx: Engine, cfg: Config, s: System, t: TaskId, world: World, notified: bool, written: bool)
    requires t in s.tasks && s.tasks[t].pc.AdoptedList?
    ensures var n := StepTask(rx, cfg, s, t, world, notified, written);
            n.wire == s.wire || n.wire == s.wire + [ListResponse(s.tasks[t].pc.reported)]
  {
    hide Resolve;
    hide AdoptInto;
  }

  /** What list requests have adopted or written so far was reported by a refresh of every exposure. */
  ghost predicate AllReported(rx: Engine, cfg: Config, caches: map<string, Definitions>, choices: seq<Choice>) {
    var s := Run(rx, cfg, caches, choices);
    && (forall t :: t in s.tasks && s.tasks[t].pc.AdoptedList? ==>
                      Reported(rx, cfg, caches, choices, s.tasks[t].pc.reported))
    && (forall i :: 0 <= i < |s.wire| && s.wire[i].ListResponse? ==>
                      Reported(rx, cfg, caches, choices, s.wire[i].snapshot))
  }

  lemma AllReportedStep(rx: Engine, cfg: Config, caches: map<string, Definitions>, front: seq<Choice>, c: Choice)
    requires cfg.WellFormed() && AllReported(rx, cfg, caches, front)
    requires Run(rx, cfg, caches, front + [c]) == Next(rx, cfg, Run(rx, cfg, caches, front), c)
    ensures AllReported(rx, cfg, caches, front + [c])
  {
    hide Run;
    hide Next;
    hide Reported;
    hide Inv;
    hide AllRefreshed;
    RunInv(rx, cfg, caches, front);
    var s := Run(rx, cfg, caches, front);
    var n := Next(rx, cfg, s, c);
    forall t | t in n.tasks && n.tasks[t].pc.AdoptedList?
      ensures Reported(rx, cfg, caches, front + [c], n.tasks[t].pc.reported)
    {
      ListAdopts(rx, cfg, s, c, t);
      if t in s.tasks && s.tasks[t].pc == n.tasks[t].pc {
        ReportedLater(rx, cfg, caches, front, c, n.tasks[t].pc.reported);
      } else {
        ReportedNow(rx, cfg, caches, front, c);
      }
    }
    forall i | 0 <= i < |n.wire| && n.wire[i].ListResponse?
      ensures Reported(rx, cfg, caches, front + [c], n.wire[i].snapshot)
    {
      ListWrites(rx, cfg, s, c, i);
      ReportedLater(rx, cfg, caches, front, c, n.wire[i].snapshot);
    }
  }

  lemma {:induction false} RunReports(rx: Engine, cfg: Config, caches: map<string, Definitions>, choices: seq<Choice>)
    requires cfg.WellFormed()
    ensures AllReported(rx, cfg, caches, choices)
  {
    hide Next;
    hide AllReported;
    if choices == [] {
      NothingReported(rx, cfg, caches);
    } else {
      var front, c := choices[..|choices| - 1], choices[|choices| - 1];
      RunReports(rx, cfg, caches, front);
      assert choices == front + [c];
      AllReportedStep(rx, cfg, caches, front, c);
    }
  }

  lemma NothingReported(rx: Engine, cfg: Config, caches: map<string, Definitions>)
    ensures AllReported(rx, cfg, caches, [])
  {
    hide StateFrom;
  }

  /**
   * Every list response of a run carries the snapshot that its request adopted at one of the run's
   * steps: there each exposure whose target had to be asked and answered became what was listed.
   */
  lemma ResponsesAreRefreshed(rx: Engine, cfg: Config, caches: map<string, Definitions>, choices: seq<Choice>, i: nat)
    requires cfg.WellFormed()
    requires i < |Run(rx, cfg, caches, choices).wire| && Run(rx, cfg, caches, choices).wire[i].ListResponse?
    ensures exists k :: 0 <= k < |choices|
                        && ListedBy(rx, cfg, caches, choices, k, Run(rx, cfg, caches, choices).wire[i].snapshot)
  {
    hide Run;
    hide ListedBy;
    RunReports(rx, cfg, caches, choices);
    assert Reported(rx, cfg, caches, choices, Run(rx, cfg, caches, choices).wire[i].snapshot);
  }

  /** In every reachable state the catalog is the projection of each target's last definitions. */
  lemma CatalogIsProjection(rx: Engine, cfg: Config, caches: map<string, Definitions>, choices: seq<Choice>, n: string)
    requires cfg.WellFormed()
    ensures var s := Run(rx, cfg, caches, choices);
            var l := s.ledger;
            && s.catalog.snapshot.tools.Keys == cfg.exposures.Keys
            && (n in cfg.exposures ==>
                  var t := cfg.exposures[n].targetId;
                  && t in l.sources
                  && s.catalog.snapshot.tools[n] == StateFrom(rx, cfg.exposures[n], l.sources[t])
                  && (l.sources[t].Discovered? ==> (t, l.sources[t].defs) in l.discoveries)
                  && (t in s.catalog.freshTargets <==> t in l.lastOutcome && l.lastOutcome[t])
                  && (t in s.catalog.freshTargets ==> l.sources[t].Discovered?))
  {
    hide Run;
    hide WireOk;
    hide Announced;
    hide LocksOk;
    hide PcOk;
    hide ResolvedOk;
    hide StateFrom;
    RunInv(rx, cfg, caches, choices);
  }

  /**
   * Calls never run on definitions from a disk cache: each was validated against a tool projected
   * from the definitions its target was last discovered to have, with no failure since.
   */
  lemma CallsUseDiscoveries(rx: Engine, cfg: Config, caches: map<string, Definitions>, choices: seq<Choice>, i: nat)
    requires cfg.WellFormed()
    requires i < |Run(rx, cfg, caches, choices).resolved|
    ensures var s := Run(rx, cfg, caches, choices);
            ResolvedOk(rx, cfg, s.ledger.discoveries, s.resolved[i])
  {
    hide Run;
    hide CatalogOk;
    hide WireOk;
    hide Announced;
    hide LocksOk;
    hide PcOk;
    hide ResolvedOk;
    RunInv(rx, cfg, caches, choices);
  }

  /** At the step that validates a call, its tool is the catalog's own ready tool, and its target is fresh. */
  lemma ResolvesCurrentTool(rx: Engine, cfg: Config, caches: map<string, Definitions>, choices: seq<Choice>, c: Choice)
    requires cfg.WellFormed()
    requires var s := Run(rx, cfg, caches, choices); |Next(rx, cfg, s, c).resolved| > |s.resolved|
    ensures var s := Run(rx, cfg, caches, choices);
            var n := Next(rx, cfg, s, c);
            && |n.resolved| == |s.resolved| + 1
            && var r := n.resolved[|s.resolved|];
            && r.name in cfg.exposures && cfg.exposures[r.name].targetId in s.catalog.freshTargets
            && r.source == SourceOf(s.ledger, cfg.exposures[r.name].targetId)
            && Get(s.catalog.snapshot.tools, r.name) == Some(Ready(r.tool))
  {
    hide Run;
    hide Next;
    hide CatalogOk;
    hide WireOk;
    hide Announced;
    hide LocksOk;
    hide PcOk;
    hide ResolvedOk;
    hide Pending;
    RunInv(rx, cfg, caches, choices);
    var s := Run(rx, cfg, caches, choices);
    OnlyCapturedResolves(rx, cfg, s, c);
    CapturedIsCurrent(rx, cfg, s, c.task);
  }

  /**
   * The refreshes around a call, in any reachable state: before it the call's own target is asked
   * unless it is fresh and connected, and the call keeps the entry that leaves; after it, if the
   * upstream announced a change, the target is asked whatever its freshness. No other exposure is touched.
   */
  lemma CallRefreshes(rx: Engine, cfg: Config, caches: map<string, Definitions>, choices: seq<Choice>, t: TaskId,
                      world: World, notified: bool, written: bool)
    requires cfg.WellFormed()
    requires var s := Run(rx, cfg, caches, choices);
             t in s.tasks && s.tasks[t].job.CallJob? && s.tasks[t].job.name in cfg.exposures
    ensures var s := Run(rx, cfg, caches, choices);
            var n := StepTask(rx, cfg, s, t, world, notified, written);
            var target := cfg.exposures[s.tasks[t].job.name].targetId;
            && t in n.tasks
            && (s.tasks[t].pc.Refreshing? ==>
                  && OneRefreshed(rx, cfg, target, s.catalog, n.catalog, world, false)
                  && n.tasks[t].pc.AdoptedCall?
                  && (n.tasks[t].pc.available <==>
                        !Asked(s.catalog, target, world, false) || Answered(cfg, target, world))
                  && n.tasks[t].pc.state == Get(n.catalog.snapshot.tools, s.tasks[t].job.name))
            && (s.tasks[t].pc.SequencedAgain? && notified && s.refreshLock.None? ==> n.tasks[t].pc.RefreshingAgain?)
            && (s.tasks[t].pc.RefreshingAgain? ==>
                  OneRefreshed(rx, cfg, target, s.catalog, n.catalog, world, true) && n.tasks[t].pc.AdoptedAgain?)
  {
    hide Run;
    hide StepTask;
    hide CatalogOk;
    hide WireOk;
    hide LocksOk;
    hide ResolvedOk;
    hide StateOk;
    hide Announced;
    hide Pending;
    hide OneRefreshed;
    hide Config.WellFormed;
    RunInv(rx, cfg, caches, choices);
    var s := Run(rx, cfg, caches, choices);
    assert PcOk(rx, cfg, s, s.tasks[t]);
    CatalogDomain(rx, cfg, s.catalog, s.ledger);
    OnlyOneMoves(rx, cfg, s, t, world, notified, written);
    match s.tasks[t].pc {
      case Refreshing(_) => CallAsks(rx, cfg, s, t, world, notified, written);
      case RefreshingAgain(_) => CallAsksAgain(rx, cfg, s, t, world, notified, written);
      case SequencedAgain =>
        if notified && s.refreshLock.None? { NoticeIsFollowed(rx, cfg, s, t, world, written); }
      case _ =>
    }
  }

  lemma CallAsks(rx: Engine, cfg: Config, s: System, t: TaskId, world: World, notified: bool, written: bool)
    requires cfg.WellFormed() && s.catalog.snapshot.tools.Keys == cfg.exposures.Keys
    requires t in s.tasks && s.tasks[t].job.CallJob? && s.tasks[t].job.name in cfg.exposures
    requires s.tasks[t].pc == Refreshing(s.catalog)
    ensures var n := StepTask(rx, cfg, s, t, world, notified, written);
            var target := cfg.exposures[s.tasks[t].job.name].targetId;
            && OneRefreshed(rx, cfg, target, s.catalog, n.catalog, world, false)
            && t in n.tasks && n.tasks[t].pc.AdoptedCall?
            && (n.tasks[t].pc.available <==> !Asked(s.catalog, target, world, false) || Answered(cfg, target, world))
            && n.tasks[t].pc.state == Get(n.catalog.snapshot.tools, s.tasks[t].job.name)
  {
    hide Resolve;
    hide AdoptInto;
    hide ExposedTargets;
    hide Failed;
    hide SourceOf;
    hide Succeeded;
    hide OneRefreshed;
    hide Asked;
    hide Refresh;
    hide Config.WellFormed;
    var target := cfg.exposures[s.tasks[t].job.name].targetId;
    AvailableMeans(cfg, s.catalog, target, world);
    TargetRefreshes(rx, cfg, s.catalog, target, world, false);
    AdoptIsRefresh(rx, cfg, s, {target}, world, false, false);
    AdoptLeavesTasks(rx, cfg, s);
  }

  lemma CallAsksAgain(rx: Engine, cfg: Config, s: System, t: TaskId, world: World, notified: bool, written: bool)
    requires cfg.WellFormed() && s.catalog.snapshot.tools.Keys == cfg.exposures.Keys
    requires t in s.tasks && s.tasks[t].job.CallJob? && s.tasks[t].job.name in cfg.exposures
    requires s.tasks[t].pc == RefreshingAgain(s.catalog)
    ensures var n := StepTask(rx, cfg, s, t, world, notified, written);
            var target := cfg.exposures[s.tasks[t].job.name].targetId;
            && OneRefreshed(rx, cfg, target, s.catalog, n.catalog, world, true)
            && t in n.tasks && n.tasks[t].pc.AdoptedAgain?
  {
    hide Resolve;
    hide AdoptInto;
    hide ExposedTargets;
    hide Failed;
    hide SourceOf;
    hide Succeeded;
    hide OneRefreshed;
    hide Refresh;
    hide Config.WellFormed;
    var target := cfg.exposures[s.tasks[t].job.name].targetId;
    TargetRefreshes(rx, cfg, s.catalog, target, world, true);
    AdoptIsRefresh(rx, cfg, s, {target}, world, true, false);
    AdoptLeavesTasks(rx, cfg, s);
  }

  lemma NoticeIsFollowed(rx: Engine, cfg: Config, s: System, t: TaskId, world: World, written: bool)
    requires t in s.tasks && s.tasks[t].pc.SequencedAgain? && s.refreshLock.None?
    ensures var n := StepTask(rx, cfg, s, t, world, true, written);
            t in n.tasks && n.tasks[t].pc.RefreshingAgain?
  {
    hide Resolve;
    hide AdoptInto;
  }

  lemma AvailableMeans(cfg: Config, c: Catalog, target: string, world: World)
    ensures target !in Failed(cfg, c, {target}, world, false) <==>
            !Asked(c, target, world, false) || Answered(cfg, target, world)
  {}

  lemma OnlyCapturedResolves(rx: Engine, cfg: Config, s: System, c: Choice)
    requires |Next(rx, cfg, s, c).resolved| > |s.resolved|
    ensures c.task in s.tasks && s.tasks[c.task].pc.Captured? && s.tasks[c.task].job.CallJob?
    ensures var task, n := s.tasks[c.task], Next(rx, cfg, s, c);
            && task.pc.available && task.pc.state.Some? && task.pc.state.value.Ready?
            && |n.resolved| == |s.resolved| + 1
            && var r := n.resolved[|s.resolved|];
            && r.name == task.job.name && r.tool == task.pc.state.value.tool
            && r.source == SourceOf(s.ledger, TargetOf(cfg, task.job))
  {
    hide AdoptInto;
    hide Resolve;
    hide SourceOf;
    hide Succeeded;
    if c.Advance? && c.task in s.tasks && !s.tasks[c.task].pc.Captured? {
      OthersLeaveResolved(rx, cfg, s, c.task, c.world, c.notified, c.written);
    }
  }

  lemma OthersLeaveResolved(rx: Engine, cfg: Config, s: System, t: TaskId, world: World, notified: bool, written: bool)
    requires t in s.tasks && !s.tasks[t].pc.Captured?
    ensures StepTask(rx, cfg, s, t, world, notified, written).resolved == s.resolved
  {
    hide AdoptInto;
    hide Resolve;
    hide ExposedTargets;
    hide Failed;
    AdoptLeavesResolved(rx, cfg, s);
  }

  lemma CapturedIsCurrent(rx: Engine, cfg: Config, s: System, t: TaskId)
    requires t in s.tasks && s.tasks[t].pc.Captured? && s.tasks[t].job.CallJob?
    requires CatalogOk(rx, cfg, s.catalog, s.ledger) && PcOk(rx, cfg, s, s.tasks[t])
    requires s.tasks[t].pc.available && s.tasks[t].pc.state.Some? && s.tasks[t].pc.state.value.Ready?
    ensures var name := s.tasks[t].job.name;
            && name in cfg.exposures && cfg.exposures[name].targetId == TargetOf(cfg, s.tasks[t].job)
            && cfg.exposures[name].targetId in s.catalog.freshTargets
            && Get(s.catalog.snapshot.tools, name) == Some(Ready(s.tasks[t].pc.state.value.tool))
  {
    hide Derive;
  }

  lemma AdoptLeavesResolved(rx: Engine, cfg: Config, s: System)
    ensures forall prior: Catalog, targets, world, force, mark :: prior.snapshot.tools.Keys == cfg.exposures.Keys ==>
              AdoptInto(rx, cfg, s, prior, targets, world, force, mark).resolved == s.resolved
  {
    hide RefreshFrom;
    hide NextTools;
    hide Found;
    hide Failed;
  }

  /**
   * End to end: in any run, what a restricted call forwarded is its arguments and the fixed values,
   * with nothing missing that upstream requires and nothing it does not know, by the definition this
   * process last discovered. As numbers it satisfies that definition's closed schema, up to a root
   * enum, exactly when every argument meets upstream and no fixed value was judged on the zero branch.
   */
  lemma ForwardedConforms(rx: Engine, cfg: Config, caches: map<string, Definitions>, choices: seq<Choice>, i: nat)
    requires cfg.WellFormed()
    requires i < |Run(rx, cfg, caches, choices).resolved|
    requires var r := Run(rx, cfg, caches, choices).resolved[i];
             r.call.Some? && r.name in cfg.exposures && cfg.exposures[r.name].restriction.Some?
    ensures var s := Run(rx, cfg, caches, choices);
            var r := s.resolved[i];
            var e := cfg.exposures[r.name];
            && r.source.Discovered? && r.succeeded && (e.targetId, r.source.defs) in s.ledger.discoveries
            && e.upstreamTool in r.source.defs
            && ForwardedOk(rx, e, r.source.defs[e.upstreamTool], r)
  {
    hide Run;
    hide Derive;
    hide Resolve;
    hide UpstreamSchema;
    hide UpstreamProperties;
    hide PublicRoot.InputSchema;
    hide PublicRoot.ObjectConforms;
    hide OrderOK;
    hide PublicRoot.MembersOrderOK;
    hide ArgumentsMeet;
    hide ArgumentsKept;
    hide MergesDecided;
    hide Conforms;
    hide EnumOk;
    CallsUseDiscoveries(rx, cfg, caches, choices, i);
    var r := Run(rx, cfg, caches, choices).resolved[i];
    var e := cfg.exposures[r.name];
    var tool := r.source.defs[e.upstreamTool];
    DerivedSchema(rx, e, tool);
    CallRebuilds(rx, cfg.exposures, cfg.targets, r.name, tool, r.args);
    CallSound(rx, cfg.exposures, cfg.targets, r.name, tool, r.args);
  }

  ghost predicate ForwardedOk(rx: Engine, e: Exposure, tool: Value, r: Resolution)
    requires r.call.Some? && e.restriction.Some?
  {
    && r.args.Obj? && UpstreamSchema(rx, tool).Some? && PublicRoot.InputSchema(rx, r.tool).Some?
    && var up, s := UpstreamSchema(rx, tool).value, PublicRoot.InputSchema(rx, r.tool).value;
    && var fixed, sent := FixedValues(e.restriction.value), r.call.value.arguments;
    && r.call.value.targetId == e.targetId && r.call.value.upstreamTool == e.upstreamTool
    && r.args.fields.Keys !! fixed.Keys && sent == r.args.fields + fixed
    && up.required <= sent.Keys && sent.Keys <= up.properties.Keys
    && (PublicRoot.ObjectConforms(rx, Exact, up, sent) <==>
          ArgumentsMeet(up, s, r.args.fields) && PublicRoot.MembersOrderOK(up, fixed))
    && (OrderOK(s, r.args) ==>
          (ArgumentsMeet(up, s, r.args.fields) <==> ArgumentsKept(e.restriction.value, up, r.args.fields)))
    && (OrderOK(s, r.args) && MergesDecided(e.restriction.value, UpstreamProperties(tool)) ==>
          ArgumentsKept(e.restriction.value, up, r.args.fields))
    && (Conforms(rx, Exact, up, Obj(sent)) <==>
          PublicRoot.ObjectConforms(rx, Exact, up, sent) && EnumOk(up.enumValues, Obj(sent)))
  }
}
