/** Global call slots and one lock per upstream target, under any interleaving of tasks. */
module Admission {
  import opened Json

  const GLOBAL_CALL_SLOTS: nat := 16

  type TaskId = nat
  type ActorId = nat

  /**
   * Calls and discoveries take a slot and then try the target's lock; a command-line target takes
   * a slot only. Reading the change flag and shutting down wait for the lock without a slot, and
   * asking whether a target is connected tries the lock without a slot.
   */
  datatype Kind = Upstream | CommandLine | Waiter | Peek

  datatype Outcome = Finished | Busy | Cancelled | NoTarget

  /** Where a task is. Leaving holds what Admitted holds, on the way out. */
  datatype Pc =
    | Arrived
    | Admitted
    | Found(actor: ActorId)
    | Working(actor: ActorId)
    | Leaving(outcome: Outcome)
    | Ended(outcome: Outcome)

  datatype Task = Task(kind: Kind, target: string, pc: Pc) {
    predicate HasSlot() {
      (kind.Upstream? || kind.CommandLine?) && !pc.Arrived? && !pc.Ended?
    }
  }

  /** `free` is the semaphore's count, `locks` the held mutexes, `registry` the shared actor table. */
  datatype System = System(free: nat, registry: map<string, ActorId>, locks: map<ActorId, TaskId>,
                           tasks: map<TaskId, Task>, nextActor: ActorId)

  function Initial(): System {
    System(GLOBAL_CALL_SLOTS, map[], map[], map[], 0)
  }

  /** Arrive adds a task; Advance moves one on; Abort is an error, timeout, shutdown or dropped future. */
  datatype Choice =
    | Arrive(id: TaskId, kind: Kind, target: string)
    | Advance(id: TaskId, cancelled: bool)
    | Abort(id: TaskId, outcome: Outcome)

  function At(s: System, id: TaskId, pc: Pc): System
    requires id in s.tasks
  {
    s.(tasks := s.tasks[id := s.tasks[id].(pc := pc)])
  }

  function Next(s: System, c: Choice): System {
    match c
    case Arrive(id, kind, target) =>
      if id in s.tasks then s else s.(tasks := s.tasks[id := Task(kind, target, Arrived)])
    case Advance(id, cancelled) =>
      if id in s.tasks then Move(s, id, cancelled) else s
    case Abort(id, outcome) =>
      if id in s.tasks then Exit(s, id, outcome) else s
  }

  function Move(s: System, id: TaskId, cancelled: bool): System
    requires id in s.tasks
  {
    var task := s.tasks[id];
    match task.pc
    case Arrived =>
      if task.kind.Waiter? || task.kind.Peek? then
        if task.target in s.registry then At(s, id, Found(s.registry[task.target])) else At(s, id, Ended(NoTarget))
      else if cancelled then At(s, id, Ended(Cancelled))
      else if s.free == 0 then At(s, id, Ended(Busy))
      else At(s.(free := s.free - 1), id, Admitted)
    case Admitted =>
      if task.kind.CommandLine? then At(s, id, Leaving(Finished))
      else if task.target in s.registry then At(s, id, Found(s.registry[task.target]))
      else At(s.(registry := s.registry[task.target := s.nextActor], nextActor := s.nextActor + 1), id,
              Found(s.nextActor))
    case Found(actor) =>
      if actor !in s.locks then At(s.(locks := s.locks[actor := id]), id, Working(actor))
      else if task.kind.Waiter? then s
      else At(s, id, Leaving(Busy))
    case Working(_) => Exit(s, id, Finished)
    case Leaving(outcome) => Release(s, id, outcome)
    case Ended(_) => s
  }

  /** Guards are dropped in reverse order: first the lock, then the slot. */
  function Exit(s: System, id: TaskId, outcome: Outcome): System
    requires id in s.tasks
  {
    var task := s.tasks[id];
    match task.pc
    case Arrived => At(s, id, Ended(outcome))
    case Admitted => At(s, id, Leaving(outcome))
    case Found(_) => At(s, id, Leaving(outcome))
    case Working(actor) => At(s.(locks := s.locks - {actor}), id, Leaving(outcome))
    case Leaving(_) => s
    case Ended(_) => s
  }

  function Release(s: System, id: TaskId, outcome: Outcome): System
    requires id in s.tasks
  {
    At(if s.tasks[id].HasSlot() then s.(free := s.free + 1) else s, id, Ended(outcome))
  }

  function Run(choices: seq<Choice>): System {
    if choices == [] then Initial() else Next(Run(choices[..|choices| - 1]), choices[|choices| - 1])
  }

  // What holds in every reachable state.

  ghost function Holders(s: System): set<TaskId> {
    set id | id in s.tasks && s.tasks[id].HasSlot()
  }

  /** The actor a task has looked up is the one its target has, and no two targets share one. */
  ghost predicate RegistryOk(s: System) {
    && (forall t :: t in s.registry ==> s.registry[t] < s.nextActor)
    && (forall t, u :: t in s.registry && u in s.registry && s.registry[t] == s.registry[u] ==> t == u)
    && (forall id :: id in s.tasks && (s.tasks[id].pc.Found? || s.tasks[id].pc.Working?) ==>
                       s.tasks[id].target in s.registry && s.registry[s.tasks[id].target] == s.tasks[id].pc.actor)
  }

  /** Every lock is held by the one task working under it. */
  ghost predicate LocksOk(s: System) {
    && (forall a :: a in s.locks ==> s.locks[a] in s.tasks && s.tasks[s.locks[a]].pc == Working(a))
    && (forall id :: id in s.tasks && s.tasks[id].pc.Working? ==>
                       s.tasks[id].pc.actor in s.locks && s.locks[s.tasks[id].pc.actor] == id)
  }

  ghost predicate Inv(s: System) {
    && s.free + |Holders(s)| == GLOBAL_CALL_SLOTS
    && RegistryOk(s)
    && LocksOk(s)
  }

  // One step changes one task, and the shared state accordingly.

  ghost predicate Updates(s: System, t: System, id: TaskId) {
    && id in t.tasks && t.tasks == s.tasks[id := t.tasks[id]]
    && (id in s.tasks ==> t.tasks[id].kind == s.tasks[id].kind && t.tasks[id].target == s.tasks[id].target)
  }

  function SlotsOf(s: System, id: TaskId): nat {
    if id in s.tasks && s.tasks[id].HasSlot() then 1 else 0
  }

  lemma TaskEffect(s: System, c: Choice)
    ensures Next(s, c) == s || Updates(s, Next(s, c), c.id)
    ensures Next(s, c).free + SlotsOf(Next(s, c), c.id) == s.free + SlotsOf(s, c.id)
  {
    hide Updates;
    UpdateEffect(s, c);
  }

  lemma UpdateEffect(s: System, c: Choice)
    ensures Next(s, c) == s || Updates(s, Next(s, c), c.id)
  {
    hide Exit;
    hide Move;
    if c.id in s.tasks && c.Abort? { ExitEffect(s, c.id, c.outcome); }
    if c.id in s.tasks && c.Advance? { MoveEffect(s, c.id, c.cancelled); }
  }

  lemma ExitEffect(s: System, id: TaskId, outcome: Outcome)
    requires id in s.tasks
    ensures Exit(s, id, outcome) == s || Updates(s, Exit(s, id, outcome), id)
  {}

  lemma AtUpdates(s: System, shared: System, id: TaskId)
    requires id in s.tasks && shared.tasks == s.tasks
    ensures forall pc :: Updates(s, At(shared, id, pc), id)
  {}

  lemma MoveEffect(s: System, id: TaskId, cancelled: bool)
    requires id in s.tasks
    ensures Move(s, id, cancelled) == s || Updates(s, Move(s, id, cancelled), id)
  {
    hide Exit;
    hide At;
    hide Updates;
    ExitEffect(s, id, Finished);
    AtUpdates(s, s, id);
    AtUpdates(s, s.(free := s.free + 1), id);
    if s.free > 0 { AtUpdates(s, s.(free := s.free - 1), id); }
    var target := s.tasks[id].target;
    AtUpdates(s, s.(registry := s.registry[target := s.nextActor], nextActor := s.nextActor + 1), id);
    if s.tasks[id].pc.Found? { AtUpdates(s, s.(locks := s.locks[s.tasks[id].pc.actor := id]), id); }
  }

  function WorkingOf(s: System, id: TaskId): set<ActorId> {
    if id in s.tasks && s.tasks[id].pc.Working? then {s.tasks[id].pc.actor} else {}
  }

  /** The stepping task takes a free lock, drops the one it works under, or leaves the locks alone. */
  lemma LockEffect(s: System, c: Choice)
    ensures var before, after := WorkingOf(s, c.id), WorkingOf(Next(s, c), c.id);
            || (Next(s, c).locks == s.locks && before == after)
            || (before == {} && exists a :: a !in s.locks && after == {a} && Next(s, c).locks == s.locks[a := c.id])
            || (after == {} && Next(s, c).locks == s.locks - before)
  {
    if c.Advance? && c.id in s.tasks && s.tasks[c.id].pc.Found? {
      var a := s.tasks[c.id].pc.actor;
      assert a !in s.locks ==> WorkingOf(Next(s, c), c.id) == {a} && Next(s, c).locks == s.locks[a := c.id];
    }
  }

  /** The stepping task registers its target's first actor, or leaves the table alone. */
  lemma RegistryEffect(s: System, c: Choice)
    ensures var t := Next(s, c);
            || (t.registry == s.registry && t.nextActor == s.nextActor)
            || (&& c.id in s.tasks && s.tasks[c.id].target !in s.registry && t.nextActor == s.nextActor + 1
                && t.registry == s.registry[s.tasks[c.id].target := s.nextActor])
  {}

  /** What the stepping task has looked up is what it had, or what the table says. */
  lemma LookupEffect(s: System, c: Choice)
    ensures var t := Next(s, c);
            c.id in t.tasks && (t.tasks[c.id].pc.Found? || t.tasks[c.id].pc.Working?) ==>
              || (t.tasks[c.id].target in t.registry && t.tasks[c.id].pc.actor == t.registry[t.tasks[c.id].target])
              || (c.id in s.tasks && (s.tasks[c.id].pc.Found? || s.tasks[c.id].pc.Working?)
                  && t.tasks[c.id].pc.actor == s.tasks[c.id].pc.actor && t.tasks[c.id].target == s.tasks[c.id].target)
  {}

  lemma HoldersUpdate(s: System, t: System, id: TaskId)
    requires Updates(s, t, id)
    ensures SlotsOf(s, id) == if id in Holders(s) then 1 else 0
    ensures SlotsOf(t, id) == if id in Holders(t) then 1 else 0
    ensures Holders(t) - {id} == Holders(s) - {id}
  {}

  lemma CountWithout(a: set<TaskId>, id: TaskId)
    ensures |a| == |a - {id}| + if id in a then 1 else 0
  {
    if id in a { assert a == (a - {id}) + {id}; } else { assert a == a - {id}; }
  }

  lemma SlotsStep(s: System, c: Choice)
    requires s.free + |Holders(s)| == GLOBAL_CALL_SLOTS
    ensures Next(s, c).free + |Holders(Next(s, c))| == GLOBAL_CALL_SLOTS
  {
    hide Next;
    hide Holders;
    hide Updates;
    hide SlotsOf;
    TaskEffect(s, c);
    var t := Next(s, c);
    if t != s {
      HoldersUpdate(s, t, c.id);
      CountWithout(Holders(s), c.id);
      CountWithout(Holders(t), c.id);
    }
  }

  lemma RegistryStep(s: System, c: Choice)
    requires RegistryOk(s)
    ensures RegistryOk(Next(s, c))
  {
    hide Next;
    TaskEffect(s, c);
    RegistryEffect(s, c);
    LookupEffect(s, c);
  }

  lemma LocksStep(s: System, c: Choice)
    requires LocksOk(s)
    ensures LocksOk(Next(s, c))
  {
    hide Next;
    TaskEffect(s, c);
    LockEffect(s, c);
    var t, before, after := Next(s, c), WorkingOf(s, c.id), WorkingOf(Next(s, c), c.id);
    if c.id in t.tasks {
      assert t.tasks[c.id].pc.Working? ==>
               t.tasks[c.id].pc == Working(t.tasks[c.id].pc.actor) && t.tasks[c.id].pc.actor in after;
      assert forall a :: a in s.locks && s.locks[a] == c.id ==> a in before;
    }
  }

  lemma {:induction false} RunInv(choices: seq<Choice>)
    ensures Inv(Run(choices))
  {
    if choices == [] {
      assert Holders(Initial()) == {};
    } else {
      var before := choices[..|choices| - 1];
      RunInv(before);
      SlotsStep(Run(before), choices[|choices| - 1]);
      RegistryStep(Run(before), choices[|choices| - 1]);
      LocksStep(Run(before), choices[|choices| - 1]);
    }
  }

  /** Free slots and held slots always make sixteen, and at most one task works on a target. */
  lemma Conservation(choices: seq<Choice>)
    ensures Run(choices).free + |Holders(Run(choices))| == GLOBAL_CALL_SLOTS
    ensures forall i, j, target :: WorksOn(Run(choices), i, target) && WorksOn(Run(choices), j, target) ==> i == j
  {
    hide Run;
    RunInv(choices);
  }

  ghost predicate WorksOn(s: System, id: TaskId, target: string) {
    id in s.tasks && s.tasks[id].pc.Working? && s.tasks[id].target == target
  }

  ghost predicate WorkedOn(s: System, target: string) {
    exists id :: WorksOn(s, id, target)
  }

  /** Once every task has ended, however it ended, all slots are free and no lock is held. */
  lemma NothingLeaks(choices: seq<Choice>)
    requires forall id :: id in Run(choices).tasks ==> Run(choices).tasks[id].pc.Ended?
    ensures Run(choices).free == GLOBAL_CALL_SLOTS && Run(choices).locks == map[]
  {
    RunInv(choices);
    assert Holders(Run(choices)) == {};
  }

  ghost function Unended(s: System): set<TaskId> {
    set id | id in s.tasks && !s.tasks[id].pc.Ended?
  }

  /** A task on its way out keeps the outcome it has; any other unended task is given its own. */
  function Final(task: Task, given: Outcome): Outcome {
    if task.pc.Leaving? then task.pc.outcome else given
  }

  /** Every task of `s` has ended in `t`: those that had not yet with their final outcomes, the others as they were. */
  ghost predicate AllEnded(s: System, t: System, outcomes: map<TaskId, Outcome>) {
    && t.tasks.Keys == s.tasks.Keys
    && forall id :: id in s.tasks ==>
         if s.tasks[id].pc.Ended? then t.tasks[id] == s.tasks[id]
         else id in outcomes && t.tasks[id].pc == Ended(Final(s.tasks[id], outcomes[id]))
  }

  lemma NoneUnended(s: System, outcomes: map<TaskId, Outcome>)
    requires Unended(s) == {}
    ensures forall id :: id in s.tasks ==> s.tasks[id].pc.Ended?
    ensures AllEnded(s, s, outcomes)
  {
    forall id | id in s.tasks ensures s.tasks[id].pc.Ended? { assert id !in Unended(s); }
  }

  lemma OneEnds(s: System, u: System, id: TaskId, outcomes: map<TaskId, Outcome>)
    requires id in Unended(s) && id in outcomes && Updates(s, u, id)
    requires u.tasks[id].pc == Ended(Final(s.tasks[id], outcomes[id]))
    ensures Unended(u) == Unended(s) - {id}
    ensures forall t :: AllEnded(u, t, outcomes) ==> AllEnded(s, t, outcomes)
  {
    hide Final;
    forall t | AllEnded(u, t, outcomes) ensures AllEnded(s, t, outcomes) {
      forall k | k in s.tasks && k != id ensures u.tasks[k] == s.tasks[k] {}
    }
  }

  /**
   * From any point of any run the tasks still under way can all be ended by their own steps, whatever
   * outcomes they are given. That changes no task that had ended, and leaves sixteen free slots and
   * no lock.
   */
  lemma {:induction false} Drain(choices: seq<Choice>, outcomes: map<TaskId, Outcome>) returns (more: seq<Choice>)
    requires Unended(Run(choices)) <= outcomes.Keys
    ensures forall c :: c in more ==> c.id in Unended(Run(choices)) && !c.Arrive?
    ensures AllEnded(Run(choices), Run(choices + more), outcomes)
    ensures Run(choices + more).free == GLOBAL_CALL_SLOTS && Run(choices + more).locks == map[]
    decreases |Unended(Run(choices))|
  {
    hide Next;
    hide Run;
    hide Unended;
    hide AllEnded;
    hide Updates;
    hide Final;
    var s := Run(choices);
    if Unended(s) == {} {
      more := [];
      assert choices + more == choices;
      NoneUnended(s, outcomes);
      NothingLeaks(choices);
    } else {
      var id :| id in Unended(s);
      IsUnended(s, id);
      var first := [Abort(id, outcomes[id]), Advance(id, false)];
      RunTwo(choices, first[0], first[1]);
      EveryExitReturns(s, id, outcomes[id]);
      OneEnds(s, Run(choices + first), id, outcomes);
      var rest := Drain(choices + first, outcomes);
      more := first + rest;
      assert choices + more == choices + first + rest;
    }
  }

  lemma IsUnended(s: System, id: TaskId)
    ensures id in Unended(s) <==> id in s.tasks && !s.tasks[id].pc.Ended?
  {}

  lemma RunTwo(choices: seq<Choice>, a: Choice, b: Choice)
    ensures Run(choices + [a, b]) == Next(Next(Run(choices), a), b)
  {
    hide Next;
    assert (choices + [a, b])[..|choices| + 1] == choices + [a];
    assert (choices + [a])[..|choices|] == choices;
  }

  /** For `Drain`: aborting one task and letting its guards drop ends it, and gives back what it held. */
  lemma EveryExitReturns(s: System, id: TaskId, outcome: Outcome)
    requires id in s.tasks && !s.tasks[id].pc.Ended?
    ensures var t := Next(Next(s, Abort(id, outcome)), Advance(id, false));
            && Updates(s, t, id)
            && t.tasks[id].pc == Ended(Final(s.tasks[id], outcome))
            && t.free == s.free + SlotsOf(s, id)
            && t.locks == s.locks - WorkingOf(s, id)
  {
    hide Next;
    hide Final;
    hide SlotsOf;
    hide WorkingOf;
    var u := Next(s, Abort(id, outcome));
    AbortEffect(s, id, outcome);
    LeaveEffect(u, id);
    TaskEffect(s, Abort(id, outcome));
    TaskEffect(u, Advance(id, false));
    NoSlotAtEnd(Next(u, Advance(id, false)), id);
  }

  lemma AbortEffect(s: System, id: TaskId, outcome: Outcome)
    requires id in s.tasks && !s.tasks[id].pc.Ended?
    ensures var u := Next(s, Abort(id, outcome));
            && Updates(s, u, id)
            && (u.tasks[id].pc.Leaving? || u.tasks[id].pc.Ended?)
            && u.tasks[id].pc.outcome == Final(s.tasks[id], outcome)
            && u.locks == s.locks - WorkingOf(s, id)
  {}

  lemma LeaveEffect(u: System, id: TaskId)
    requires id in u.tasks && (u.tasks[id].pc.Leaving? || u.tasks[id].pc.Ended?)
    ensures var t := Next(u, Advance(id, false));
            Updates(u, t, id) && t.tasks[id].pc == Ended(u.tasks[id].pc.outcome) && t.locks == u.locks
  {}

  lemma NoSlotAtEnd(t: System, id: TaskId)
    requires id in t.tasks && t.tasks[id].pc.Ended?
    ensures SlotsOf(t, id) == 0
  {}

  /** A request is turned away as busy only when sixteen slots are held, or its target is being worked on. */
  lemma BusyMeansHeld(choices: seq<Choice>, id: TaskId, cancelled: bool)
    requires id in Run(choices).tasks && Run(choices).tasks[id].kind.Upstream?
    ensures var s := Run(choices);
            var pc := Move(s, id, cancelled).tasks[id].pc;
            && (s.tasks[id].pc.Arrived? ==> (pc == Ended(Busy) <==> !cancelled && |Holders(s)| == GLOBAL_CALL_SLOTS))
            && (s.tasks[id].pc.Found? ==> (pc == Leaving(Busy) <==> WorkedOn(s, s.tasks[id].target)))
            && (s.tasks[id].pc.Found? ==> (pc.Working? <==> !WorkedOn(s, s.tasks[id].target)))
  {
    RunInv(choices);
    hide Run;
    var s := Run(choices);
    if s.tasks[id].pc.Found? && s.tasks[id].pc.actor in s.locks {
      assert WorksOn(s, s.locks[s.tasks[id].pc.actor], s.tasks[id].target);
    }
  }
}
