/** The upstream session actor: spawn, negotiate, call, list, time out, terminate. */
module Session {
  import opened Json
  import Discovery

  type Pid = nat

  datatype Revision = Modern | Legacy

  /** Messages written to an upstream process. A request carries an id, a notification none. */
  datatype Message =
    | Discover(id: nat)
    | Initialize(id: nat)
    | Initialized
    | ListTools(id: nat, cursor: Option<string>)
    | CallTool(id: nat)
    | Cancel(request: nat)

  predicate IsRequest(m: Message) {
    m.Discover? || m.Initialize? || m.ListTools? || m.CallTool?
  }

  /**
   * What happens on the outside, in order. A message is recorded when its write is attempted, and
   * a result when the reply that carries it has completed a request.
   */
  datatype Event =
    | Spawned(pid: Pid)
    | Terminated(pid: Pid)
    | Negotiated(pid: Pid)
    | Sent(pid: Pid, message: Message)
    | Received(pid: Pid, id: nat, result: Value)

  type Trace = seq<Event>

  datatype Failure =
    | Unavailable | ConnectionClosed | Protocol | RemoteError
    | Output | MessageLimit | StderrOverflow | StderrFailed

  /** The result of a step that a timeout or a shutdown may abandon half way. */
  datatype Flow<+T> = Done(value: T) | Failed(failure: Failure) | Dropped

  // Reading one reply.

  /** One thing that can arrive while a reply is awaited. */
  datatype Incoming =
    | Overflow
    | DrainFailed
    | Closed
    | TooLong
    | Malformed
    | Notification(listChanged: bool)
    | ServerRequest
    | Response(id: Option<nat>, result: Option<Value>, error: Option<Value>)

  function Judge(m: Incoming, id: nat): Flow<Value>
    requires !m.Notification?
  {
    match m
    case Overflow => Failed(StderrOverflow)
    case DrainFailed => Failed(StderrFailed)
    case Closed => Failed(ConnectionClosed)
    case TooLong => Failed(MessageLimit)
    case Malformed => Failed(Protocol)
    case ServerRequest => Failed(Protocol)
    case Response(rid, result, error) =>
      if rid != Some(id) then Failed(Protocol)
      else if result.Some? && error.Some? then Failed(Protocol)
      else if result.Some? then Done(result.value)
      else if error.Some? && error.value.Obj? then Failed(RemoteError)
      else Failed(Protocol)
  }

  /** The position of the first arrival that is not a notification. */
  ghost predicate Decides(arrivals: seq<Incoming>, k: nat) {
    k < |arrivals| && !arrivals[k].Notification? && forall j :: 0 <= j < k ==> arrivals[j].Notification?
  }

  /** A reply that carries the awaited id and a result, and no error. */
  predicate Completes(m: Incoming, id: nat) {
    m.Response? && m.id == Some(id) && m.result.Some? && m.error.None?
  }

  /**
   * Reads until something other than a notification arrives. Only a reply with the awaited id
   * completes the request; running out of arrivals is the wait being abandoned.
   */
  method ReadReply(arrivals: seq<Incoming>, id: nat) returns (r: Flow<Value>, listChanged: bool)
    ensures r.Done? <==> exists k: nat :: Decides(arrivals, k) && Completes(arrivals[k], id)
    ensures r.Dropped? <==> forall j :: 0 <= j < |arrivals| ==> arrivals[j].Notification?
    ensures forall k: nat :: Decides(arrivals, k) ==>
                               && r == Judge(arrivals[k], id)
                               && (r.Done? ==> arrivals[k].result == Some(r.value))
                               && (listChanged <==> Notification(true) in arrivals[..k])
  {
    listChanged := false;
    for i := 0 to |arrivals|
      invariant forall j :: 0 <= j < i ==> arrivals[j].Notification?
      invariant listChanged <==> Notification(true) in arrivals[..i]
    {
      assert arrivals[..i + 1] == arrivals[..i] + [arrivals[i]];
      match arrivals[i] {
        case Notification(changed) =>
          if changed { listChanged := true; }
        case _ =>
          assert Decides(arrivals, i);
          return Judge(arrivals[i], id), listChanged;
      }
    }
    return Dropped, listChanged;
  }

  lemma NothingDecides()
    ensures forall k: nat :: !Decides([], k)
  {}

  /** A reply that carries the awaited id and an error object, and no result. */
  predicate Refuses(m: Incoming, id: nat) {
    m.Response? && m.id == Some(id) && m.result.None? && m.error.Some? && m.error.value.Obj?
  }

  /** What each verdict on a reply means for the reply. */
  lemma JudgeMeans(heard: seq<Incoming>, id: nat, r: Flow<Value>)
    requires forall k: nat :: Decides(heard, k) ==> r == Judge(heard[k], id)
    ensures forall k: nat :: Decides(heard, k) ==>
                               && (r.Done? <==> Completes(heard[k], id))
                               && (r == Failed(RemoteError) <==> Refuses(heard[k], id))
                               && (r == Failed(ConnectionClosed) <==> heard[k].Closed?)
                               && !r.Dropped?
  {}

  // Facts about traces.

  ghost function Spawns(t: Trace): set<Pid> {
    set e | e in t && e.Spawned? :: e.pid
  }

  ghost function Deaths(t: Trace): set<Pid> {
    set e | e in t && e.Terminated? :: e.pid
  }

  ghost function Live(t: Trace): set<Pid> {
    Spawns(t) - Deaths(t)
  }

  datatype Counts = Counts(spawns: nat, discovers: nat, initializes: nat, calls: nat)

  ghost function Recorded(c: Counts, e: Event): Counts {
    match e
    case Spawned(_) => c.(spawns := c.spawns + 1)
    case Sent(_, Discover(_)) => c.(discovers := c.discovers + 1)
    case Sent(_, Initialize(_)) => c.(initializes := c.initializes + 1)
    case Sent(_, CallTool(_)) => c.(calls := c.calls + 1)
    case _ => c
  }

  /** How many processes were started and how many of each request were written. */
  ghost function Tally(t: Trace): Counts {
    if t == [] then Counts(0, 0, 0, 0) else Recorded(Tally(t[..|t| - 1]), t[|t| - 1])
  }

  ghost predicate RequestAt(t: Trace, i: nat)
    requires i < |t|
  {
    t[i].Sent? && IsRequest(t[i].message)
  }

  /** Within a process the request ids strictly increase. */
  ghost predicate IdsIncrease(t: Trace) {
    forall i, j | 0 <= i < j < |t| && RequestAt(t, i) && RequestAt(t, j) && t[i].pid == t[j].pid ::
      t[i].message.id < t[j].message.id
  }

  /** A completed reply carries the id of the request written immediately before it. */
  ghost predicate RepliesOk(t: Trace) {
    forall i :: 0 <= i < |t| && t[i].Received? ==> i > 0 && Awaits(t[..i], t[i].pid, t[i].id)
  }

  /** The last thing that happened was writing request `id` to `pid`. */
  ghost predicate Awaits(t: Trace, pid: Pid, id: nat) {
    |t| > 0 && RequestAt(t, |t| - 1) && t[|t| - 1].pid == pid && t[|t| - 1].message.id == id
  }

  ghost predicate IdsBelow(t: Trace, pid: Pid, n: nat) {
    forall e :: e in t && e.Sent? && e.pid == pid && IsRequest(e.message) ==> e.message.id < n
  }

  /** Writes go to live processes, and tool requests only to negotiated ones. */
  ghost predicate SendsOk(t: Trace) {
    forall i :: 0 <= i < |t| && t[i].Sent? ==>
                  && Spawned(t[i].pid) in t[..i] && Terminated(t[i].pid) !in t[..i]
                  && (t[i].message.CallTool? || t[i].message.ListTools? ==> Negotiated(t[i].pid) in t[..i])
  }

  /** A process is spawned once and terminated at most once, after being spawned. */
  ghost predicate LifecycleOk(t: Trace) {
    && (forall i, j :: 0 <= i < j < |t| && t[i].Spawned? && t[j].Spawned? ==> t[i].pid != t[j].pid)
    && (forall i, j :: 0 <= i < j < |t| && t[i].Terminated? && t[j].Terminated? ==> t[i].pid != t[j].pid)
    && (forall i :: 0 <= i < |t| && t[i].Terminated? ==> Spawned(t[i].pid) in t[..i])
  }

  ghost predicate TraceOk(t: Trace) {
    IdsIncrease(t) && SendsOk(t) && LifecycleOk(t) && RepliesOk(t)
  }

  lemma AppendBasics(t: Trace, e: Event)
    ensures Tally(t + [e]) == Recorded(Tally(t), e)
    ensures Spawns(t + [e]) == if e.Spawned? then Spawns(t) + {e.pid} else Spawns(t)
    ensures Deaths(t + [e]) == if e.Terminated? then Deaths(t) + {e.pid} else Deaths(t)
  {
    assert (t + [e])[..|t|] == t;
    assert forall x :: x in t + [e] <==> x in t || x == e;
  }

  lemma AppendBelow(t: Trace, e: Event, pid: Pid, n: nat)
    requires IdsBelow(t, pid, n)
    requires e.Sent? && e.pid == pid && IsRequest(e.message) ==> e.message.id < n
    ensures IdsBelow(t + [e], pid, n)
  {}

  lemma AppendOk(t: Trace, e: Event)
    requires TraceOk(t)
    requires e.Spawned? ==> e.pid !in Spawns(t)
    requires e.Terminated? ==> e.pid in Live(t)
    requires e.Sent? && IsRequest(e.message) ==> IdsBelow(t, e.pid, e.message.id)
    requires e.Sent? ==> e.pid in Live(t) && (e.message.CallTool? || e.message.ListTools? ==> Negotiated(e.pid) in t)
    requires e.Received? ==> Awaits(t, e.pid, e.id)
    ensures TraceOk(t + [e])
  {
    IdsAppend(t, e);
    SendsAppend(t, e);
    LifecycleAppend(t, e);
    RepliesAppend(t, e);
  }

  lemma IdsAppend(t: Trace, e: Event)
    requires IdsIncrease(t)
    requires e.Sent? && IsRequest(e.message) ==> IdsBelow(t, e.pid, e.message.id)
    ensures IdsIncrease(t + [e])
  {
    var u := t + [e];
    forall i, j | 0 <= i < j < |u| && RequestAt(u, i) && RequestAt(u, j) && u[i].pid == u[j].pid
      ensures u[i].message.id < u[j].message.id
    {
      assert RequestAt(t, i);
      if j < |t| { assert RequestAt(t, j); }
    }
  }

  lemma RepliesAppend(t: Trace, e: Event)
    requires RepliesOk(t)
    requires e.Received? ==> Awaits(t, e.pid, e.id)
    ensures RepliesOk(t + [e])
  {
    var u := t + [e];
    forall i | 0 <= i < |u| && u[i].Received? ensures i > 0 && Awaits(u[..i], u[i].pid, u[i].id) {
      assert u[..i] == t[..i];
      assert t[..|t|] == t;
    }
  }

  lemma SendsAppend(t: Trace, e: Event)
    requires SendsOk(t)
    requires e.Sent? ==> e.pid in Live(t) && (e.message.CallTool? || e.message.ListTools? ==> Negotiated(e.pid) in t)
    ensures SendsOk(t + [e])
  {
    var u := t + [e];
    forall i | 0 <= i < |u| && u[i].Sent?
      ensures Spawned(u[i].pid) in u[..i] && Terminated(u[i].pid) !in u[..i]
      ensures u[i].message.CallTool? || u[i].message.ListTools? ==> Negotiated(u[i].pid) in u[..i]
    {
      if i < |t| { assert u[..i] == t[..i]; } else { assert u[..i] == t; }
    }
  }

  lemma LifecycleAppend(t: Trace, e: Event)
    requires LifecycleOk(t)
    requires e.Spawned? ==> e.pid !in Spawns(t)
    requires e.Terminated? ==> e.pid in Live(t)
    ensures LifecycleOk(t + [e])
  {
    var u := t + [e];
    forall i | 0 <= i < |u| && u[i].Terminated? ensures Spawned(u[i].pid) in u[..i] {
      if i < |t| {
        assert u[..i] == t[..i];
      } else {
        assert u[..i] == t;
        assert e.pid in Spawns(t);
      }
    }
  }

  // The actor.

  datatype Process = Process(pid: Pid, listChanged: bool)

  datatype Ready = Ready(process: Process, revision: Revision, nextId: nat)

  class McpSession {
    var ready: Option<Ready>
    var starting: Option<Process>
    var activeRequest: Option<nat>
    ghost var trace: Trace
    var nextPid: Pid

    ghost function Owned(): set<Pid>
      reads this
    {
      (if ready.Some? then {ready.value.process.pid} else {}) + (if starting.Some? then {starting.value.pid} else {})
    }

    /** Every process ever spawned is owned by the session or terminated, and the trace is in order. */
    ghost predicate Valid()
      reads this
    {
      && TraceOk(trace)
      && (forall e :: e in trace ==> e.pid < nextPid)
      && Live(trace) == Owned()
      && (ready.Some? && starting.Some? ==> ready.value.process.pid != starting.value.pid)
      && (ready.Some? ==> Negotiated(ready.value.process.pid) in trace
                          && IdsBelow(trace, ready.value.process.pid, ready.value.nextId))
    }

    /** Between operations nothing is starting and no request is active. */
    ghost predicate Idle()
      reads this
    {
      Valid() && starting.None? && activeRequest.None?
    }

    constructor ()
      ensures Idle() && ready.None? && trace == []
    {
      ready, starting, activeRequest, trace, nextPid := None, None, None, [], 0;
    }

    /** Records one event of the outside world. */
    ghost method Log(e: Event)
      requires Valid() && e.pid in Live(trace)
      requires e.Negotiated? || e.Sent? || e.Received?
      requires e.Received? ==> Awaits(trace, e.pid, e.id)
      requires e.Sent? && IsRequest(e.message) ==>
                 && IdsBelow(trace, e.pid, e.message.id)
                 && (ready.Some? && ready.value.process.pid == e.pid ==> e.message.id < ready.value.nextId)
      requires e.Sent? && (e.message.CallTool? || e.message.ListTools?) ==> Negotiated(e.pid) in trace
      modifies this`trace
      ensures Valid() && trace == old(trace) + [e]
    {
      hide TraceOk;
      AppendOk(trace, e);
      AppendBasics(trace, e);
      if ready.Some? { AppendBelow(trace, e, ready.value.process.pid, ready.value.nextId); }
      trace := trace + [e];
    }

    /** A write: it may succeed, fail, or be abandoned by a timeout or shutdown. */
    method Send(pid: Pid, m: Message) returns (io: Flow<()>)
      requires Valid() && pid in Live(trace)
      requires IsRequest(m) ==>
                 && IdsBelow(trace, pid, m.id)
                 && (ready.Some? && ready.value.process.pid == pid ==> m.id < ready.value.nextId)
      requires m.CallTool? || m.ListTools? ==> Negotiated(pid) in trace
      modifies this`trace
      ensures Valid() && trace == old(trace) + [Sent(pid, m)]
      ensures Tally(trace) == Recorded(Tally(old(trace)), Sent(pid, m))
      ensures IsRequest(m) ==> IdsBelow(trace, pid, m.id + 1) && Awaits(trace, pid, m.id)
      ensures forall n :: IdsBelow(old(trace), pid, n) && !IsRequest(m) ==> IdsBelow(trace, pid, n)
    {
      hide TraceOk;
      AppendBasics(trace, Sent(pid, m));
      Log(Sent(pid, m));
      io := *;
    }

    /** Starts a process into `starting`, unless the system cannot. */
    method Spawn() returns (ok: bool)
      requires Valid() && starting.None?
      modifies this`starting, this`nextPid, this`trace
      ensures old(trace) <= trace
      ensures Valid()
      ensures ok ==> starting.Some? && !starting.value.listChanged
      ensures !ok ==> starting.None?
      ensures Tally(trace) == if ok then Recorded(Tally(old(trace)), Spawned(starting.value.pid)) else Tally(old(trace))
      ensures ok ==> forall n :: IdsBelow(trace, starting.value.pid, n)
    {
      hide TraceOk;
      ok := *;
      if ok {
        ghost var e := Spawned(nextPid);
        AppendOk(trace, e);
        AppendBasics(trace, e);
        if ready.Some? { AppendBelow(trace, e, ready.value.process.pid, ready.value.nextId); }
        trace := trace + [e];
        starting := Some(Process(nextPid, false));
        nextPid := nextPid + 1;
      }
    }

    /** Reaps a process that has been moved out of the session. */
    ghost method LogTermination(pid: Pid)
      requires TraceOk(trace) && pid in Live(trace) && pid < nextPid
      requires forall e :: e in trace ==> e.pid < nextPid
      requires Live(trace) == Owned() + {pid} && pid !in Owned()
      requires ready.Some? && starting.Some? ==> ready.value.process.pid != starting.value.pid
      requires ready.Some? ==> Negotiated(ready.value.process.pid) in trace
                               && IdsBelow(trace, ready.value.process.pid, ready.value.nextId)
      modifies this`trace
      ensures Valid() && trace == old(trace) + [Terminated(pid)]
    {
      hide TraceOk;
      ghost var e := Terminated(pid);
      AppendOk(trace, e);
      AppendBasics(trace, e);
      if ready.Some? { AppendBelow(trace, e, ready.value.process.pid, ready.value.nextId); }
      trace := trace + [e];
    }

    method TerminateReady()
      requires Valid()
      modifies this`ready, this`trace
      ensures old(trace) <= trace
      ensures Valid() && ready.None?
      ensures trace == old(trace) + if old(ready).Some? then [Terminated(old(ready).value.process.pid)] else []
      ensures Tally(trace) == Tally(old(trace))
    {
      hide TraceOk;
      if ready.Some? {
        ghost var pid := ready.value.process.pid;
        AppendBasics(trace, Terminated(pid));
        ready := None;
        LogTermination(pid);
      }
    }

    method TerminateStarting()
      requires Valid()
      modifies this`starting, this`trace
      ensures old(trace) <= trace
      ensures Valid() && starting.None?
      ensures trace == old(trace) + if old(starting).Some? then [Terminated(old(starting).value.pid)] else []
      ensures Tally(trace) == Tally(old(trace))
    {
      hide TraceOk;
      if starting.Some? {
        ghost var pid := starting.value.pid;
        AppendBasics(trace, Terminated(pid));
        starting := None;
        LogTermination(pid);
      }
    }

    ghost function Ends(): Trace
      reads this
    {
      (if ready.Some? then [Terminated(ready.value.process.pid)] else [])
      + (if starting.Some? then [Terminated(starting.value.pid)] else [])
    }

    /** Ends every process of the session. */
    method Terminate()
      requires Valid()
      modifies this
      ensures old(trace) <= trace
      ensures Idle() && ready.None? && Live(trace) == {}
      ensures Tally(trace) == Tally(old(trace)) && trace == old(trace) + old(Ends())
    {
      hide TraceOk;
      activeRequest := None;
      TerminateReady();
      TerminateStarting();
    }

    /** What is told to the upstream when the request in flight is given up. */
    ghost function Cancellation(): Trace
      reads this
    {
      if activeRequest.Some? && ready.Some? then [Sent(ready.value.process.pid, Cancel(activeRequest.value))] else []
    }

    /** The path a timeout or a shutdown takes: tell the upstream, then end it. */
    method CancelAndTerminate()
      requires Valid()
      modifies this
      ensures old(trace) <= trace
      ensures Idle() && ready.None? && Live(trace) == {}
      ensures Tally(trace) == Tally(old(trace)) && trace == old(trace) + old(Cancellation()) + old(Ends())
    {
      hide TraceOk;
      if activeRequest.Some? {
        var id := activeRequest.value;
        activeRequest := None;
        if ready.Some? {
          var io := Send(ready.value.process.pid, Cancel(id));
        }
      }
      Terminate();
    }

    /** Waits for the reply to `id` from whatever arrives; the wait may be abandoned. */
    method AwaitReply(pid: Pid, id: nat) returns (r: Flow<Value>, listChanged: bool, ghost arrivals: seq<Incoming>)
      requires Valid() && pid in Live(trace) && Awaits(trace, pid, id)
      modifies this`trace
      ensures Valid()
      ensures trace == old(trace) + if r.Done? then [Received(pid, id, r.value)] else []
      ensures Tally(trace) == Tally(old(trace))
      ensures r.Done? <==> exists k: nat :: Decides(arrivals, k) && Completes(arrivals[k], id)
      ensures forall k: nat :: Decides(arrivals, k) ==> r == Judge(arrivals[k], id)
      ensures forall k: nat :: Decides(arrivals, k) && r.Done? ==> arrivals[k].result == Some(r.value)
      ensures forall n :: IdsBelow(old(trace), pid, n) ==> IdsBelow(trace, pid, n)
    {
      hide TraceOk;
      var script: seq<Incoming> := *;
      arrivals := script;
      r, listChanged := ReadReply(script, id);
      if r.Done? {
        AppendBasics(trace, Received(pid, id, r.value));
        Log(Received(pid, id, r.value));
      }
    }

    /** Ends the starting process after a failed handshake. */
    method Abandon(failure: Failure) returns (r: Flow<Ready>)
      requires Valid()
      modifies this`starting, this`trace
      ensures old(trace) <= trace
      ensures Valid() && starting.None? && r == Failed(failure) && Tally(trace) == Tally(old(trace))
    {
      TerminateStarting();
      return Failed(failure);
    }

    /** Writes a handshake request to the starting process and waits for its reply; `heard` is what arrives. */
    method Ask(request: Message) returns (r: Flow<Value>, ghost heard: seq<Incoming>)
      requires Valid() && ready.None? && starting.Some?
      requires (request.Discover? || request.Initialize?) && IdsBelow(trace, starting.value.pid, request.id)
      modifies this`starting, this`trace
      ensures old(trace) <= trace
      ensures Valid() && starting.Some? && starting.value.pid == old(starting).value.pid
      ensures IdsBelow(trace, starting.value.pid, request.id + 1)
      ensures Tally(trace) == Recorded(Tally(old(trace)), Sent(starting.value.pid, request))
      ensures forall k: nat :: Decides(heard, k) ==> r == Judge(heard[k], request.id)
    {
      hide TraceOk;
      hide Live;
      hide IdsBelow;
      hide Awaits;
      hide Decides;
      hide Completes;
      hide Tally;
      heard := [];
      NothingDecides();
      var io := Send(starting.value.pid, request);
      if io.Dropped? { return Dropped, heard; }
      if io.Failed? { return Failed(io.failure), heard; }
      var reply, noticed, arrivals := AwaitReply(starting.value.pid, request.id);
      if noticed { starting := Some(starting.value.(listChanged := true)); }
      return reply, arrivals;
    }

    /** The legacy handshake on the starting process; on failure the process is ended. */
    method LegacyInitialize(id: nat) returns (r: Flow<Ready>)
      requires Valid() && ready.None? && starting.Some?
      requires IdsBelow(trace, starting.value.pid, id)
      modifies this`starting, this`trace
      ensures old(trace) <= trace
      ensures Valid()
      ensures r.Failed? ==> starting.None?
      ensures r.Done? ==> starting.Some? && r.value == Ready(starting.value, Legacy, id + 1)
                          && IdsBelow(trace, starting.value.pid, id + 1)
      ensures Tally(trace) == Tally(old(trace)).(initializes := Tally(old(trace)).initializes + 1)
    {
      hide TraceOk;
      ghost var heard;
      var reply: Flow<Value>;
      reply, heard := Ask(Initialize(id));
      if reply.Dropped? { return Dropped; }
      if reply.Failed? { r := Abandon(reply.failure); return; }
      var accepted: bool := *;
      if !accepted { r := Abandon(Protocol); return; }
      var io := Send(starting.value.pid, Initialized);
      if io.Dropped? { return Dropped; }
      if io.Failed? { r := Abandon(io.failure); return; }
      return Done(Ready(starting.value, Legacy, id + 1));
    }

    /** Negotiation: discover, fall back to the legacy handshake, restart once if the process closed. */
    method Negotiate() returns (r: Flow<Ready>, ghost heard: seq<Incoming>)
      requires Idle() && ready.None?
      modifies this`starting, this`nextPid, this`trace
      ensures old(trace) <= trace
      ensures Valid()
      ensures r.Failed? ==> starting.None?
      ensures r.Done? ==> starting.Some? && r.value.process == starting.value
                          && IdsBelow(trace, starting.value.pid, r.value.nextId)
      ensures r.Done? ==> r.value.nextId == FirstId(r.value.revision, Tally(trace).spawns - Tally(old(trace)).spawns)
      ensures Negotiating(Tally(old(trace)), Tally(trace))
      ensures forall k: nat :: Decides(heard, k) ==> Follows(heard[k], Tally(old(trace)), Tally(trace), r)
    {
      hide TraceOk;
      hide IdsBelow;
      hide Decides;
      hide Completes;
      hide Refuses;
      hide Judge;
      hide Tally;
      hide Live;
      heard := [];
      NothingDecides();
      var started := Spawn();
      if !started { return Failed(Unavailable), heard; }
      var discovery: Flow<Value>;
      discovery, heard := Ask(Discover(1));
      JudgeMeans(heard, 1, discovery);
      if discovery.Dropped? { return Dropped, heard; }
      var modern: bool := *;
      if discovery.Done? && modern { return Done(Ready(starting.value, Modern, 2)), heard; }
      if discovery.Done? || discovery == Failed(RemoteError) {
        r := LegacyInitialize(2);
        return;
      }
      if discovery != Failed(ConnectionClosed) { r := Abandon(discovery.failure); return; }
      TerminateStarting();
      started := Spawn();
      if !started { return Failed(Unavailable), heard; }
      r := LegacyInitialize(1);
    }

    /** Ends a ready process that has exited, and negotiates when none is ready. */
    method Connect() returns (r: Flow<()>)
      requires Idle()
      modifies this
      ensures old(trace) <= trace
      ensures Valid() && activeRequest.None?
      ensures r.Done? ==> ready.Some? && starting.None?
      ensures Negotiating(Tally(old(trace)), Tally(trace))
    {
      hide TraceOk;
      hide IdsBelow;
      if ready.Some? {
        var unknown: bool := *;
        if unknown { return Failed(ConnectionClosed); }
        var exited: bool := *;
        if exited { Terminate(); }
      }
      if ready.None? {
        ghost var heard;
        var negotiated: Flow<Ready>;
        negotiated, heard := Negotiate();
        match negotiated {
          case Dropped => return Dropped;
          case Failed(failure) => return Failed(failure);
          case Done(value) => Install(value);
        }
      }
      return Done(());
    }

    method Install(negotiated: Ready)
      requires Valid() && ready.None? && starting.Some? && negotiated.process == starting.value
      requires IdsBelow(trace, starting.value.pid, negotiated.nextId)
      modifies this`ready, this`starting, this`trace
      ensures old(trace) <= trace
      ensures Valid() && ready == Some(negotiated) && starting.None?
      ensures Tally(trace) == Tally(old(trace))
    {
      hide TraceOk;
      hide Live;
      hide Tally;
      ghost var e := Negotiated(starting.value.pid);
      AppendBasics(trace, e);
      AppendBelow(trace, e, starting.value.pid, negotiated.nextId);
      Log(e);
      ready, starting := Some(negotiated), None;
    }

    /** Takes the next id, writes one request to the ready process and waits for its reply. */
    method Exchange(listing: bool, cursor: Option<string>) returns (r: Flow<Value>, ghost id: nat, ghost waiting: bool)
      requires Valid() && ready.Some? && starting.None? && activeRequest.None?
      modifies this`ready, this`activeRequest, this`trace
      ensures Valid() && ready.Some? && ready.value.process.pid == old(ready).value.process.pid
      ensures id == old(ready).value.nextId && ready.value.nextId == id + 1
      ensures activeRequest == if r.Dropped? && waiting then Some(id) else None
      ensures trace == old(trace)
                       + [Sent(ready.value.process.pid,
                               if listing then Message.ListTools(id, cursor) else CallTool(id))]
                       + if r.Done? then [Received(ready.value.process.pid, id, r.value)] else []
      ensures Tally(trace).(calls := 0) == Tally(old(trace)).(calls := 0)
      ensures Tally(trace).calls == Tally(old(trace)).calls + if listing then 0 else 1
    {
      hide TraceOk;
      hide Live;
      hide Awaits;
      hide Decides;
      hide Completes;
      hide Tally;
      var next := ready.value.nextId;
      id := next;
      waiting := false;
      var pid := ready.value.process.pid;
      var request := if listing then Message.ListTools(next, cursor) else CallTool(next);
      ready := Some(ready.value.(nextId := next + 1));
      assert Valid();
      var io := Send(pid, request);
      if io.Dropped? { return Dropped, id, waiting; }
      if io.Failed? { return Failed(io.failure), id, waiting; }
      activeRequest := Some(next);
      waiting := true;
      var reply, noticed, arrivals := AwaitReply(pid, next);
      if noticed { ready := Some(ready.value.(process := ready.value.process.(listChanged := true))); }
      if reply.Dropped? { return Dropped, id, waiting; }
      activeRequest := None;
      return reply, id, waiting;
    }

    /** One tool call: connect, write one request, adapt its result. */
    method Call(adapt: Value -> Result<Value, ()>) returns (r: Flow<Value>, ghost waiting: Option<nat>)
      requires Idle()
      modifies this
      ensures old(trace) <= trace
      ensures Valid()
      ensures !r.Dropped? ==> activeRequest.None?
      ensures r.Done? ==> Idle() && ready.Some? && AnsweredCall(trace, ready.value, adapt, r.value)
      ensures Operating(Tally(old(trace)), Tally(trace), 1)
      ensures r.Done? ==> Tally(trace).calls == Tally(old(trace)).calls + 1
      ensures waiting.Some? ==> r.Dropped? && ready.Some? && starting.None? && activeRequest == waiting
                                && trace != []
                                && trace[|trace| - 1] == Sent(ready.value.process.pid, CallTool(waiting.value))
    {
      hide TraceOk;
      hide IdsBelow;
      waiting := None;
      var connected := Connect();
      if connected.Dropped? { return Dropped, None; }
      if connected.Failed? { return Failed(connected.failure), None; }
      ghost var id, inFlight;
      var reply: Flow<Value>;
      reply, id, inFlight := Exchange(false, None);
      if reply.Dropped? { return Dropped, if inFlight then Some(id) else None; }
      if reply.Failed? { return Failed(reply.failure), None; }
      var adapted := adapt(reply.value);
      if adapted.Err? { return Failed(Output), None; }
      return Done(adapted.value), None;
    }

    /**
     * A call under a timeout and a shutdown signal. Whatever happens, the session is idle again,
     * at most one call request was written, and unless the call succeeded no process is left. A
     * call given up while its reply is awaited is cancelled by its id before its process ends.
     */
    method Execute(adapt: Value -> Result<Value, ()>) returns (r: Flow<Value>, ghost waiting: Option<nat>)
      requires Idle()
      modifies this
      ensures old(trace) <= trace
      ensures Idle()
      ensures r.Done? ==> ready.Some? && AnsweredCall(trace, ready.value, adapt, r.value)
      ensures r.Done? ==> Tally(trace).calls == Tally(old(trace)).calls + 1
      ensures !r.Done? ==> ready.None? && Live(trace) == {}
      ensures waiting.Some? ==> r.Dropped? && CancelledCall(trace, waiting.value)
      ensures Operating(Tally(old(trace)), Tally(trace), 1)
    {
      hide TraceOk;
      hide IdsBelow;
      hide Tally;
      hide Live;
      r, waiting := Call(adapt);
      match r {
        case Done(_) =>
        case Failed(_) =>
          if ready.Some? || starting.Some? { Terminate(); } else { LiveOwned(); }
        case Dropped => CancelAndTerminate();
      }
    }

    lemma LiveOwned()
      requires Valid() && ready.None? && starting.None?
      ensures Live(trace) == {}
    {}

    /**
     * The paging loop against any server: at most 16 requests, no cursor sent twice, and success
     * exactly when the replies form a complete listing, whose tools are returned in page order.
     */
    method ListTools()
      returns (r: Flow<seq<Value>>, ghost start: Trace, ghost first: nat,
               ghost requests: seq<Option<string>>, ghost replies: seq<Value>)
      requires Idle()
      modifies this
      ensures old(trace) <= trace
      ensures Valid() && (!r.Dropped? ==> activeRequest.None?) && (r.Done? ==> Idle() && ready.Some?)
      ensures r.Done? <==> |replies| == |requests| && Discovery.Listing(replies)
      ensures r.Done? ==> r.value == Discovery.Concatenated(replies)
      ensures Discovery.Paging(requests, replies)
      ensures requests != [] ==>
                ready.Some? && trace == start + Paged(ready.value.process.pid, first, requests, replies)
      ensures Operating(Tally(old(trace)), Tally(trace), 0)
    {
      hide Valid;
      hide Discovery.ValidPage;
      hide Discovery.CursorOf;
      hide Discovery.Midway;
      hide Discovery.Listing;
      hide Discovery.Paging;
      hide Discovery.Concatenated;
      hide Discovery.ToolsOf;
      hide Discovery.Follows;
      hide Paged;
      hide Tally;
      requests, replies, first := [], [], 0;
      Discovery.Begin();
      var connected := Connect();
      start := trace;
      if connected.Dropped? { return Dropped, start, first, requests, replies; }
      if connected.Failed? { return Failed(connected.failure), start, first, requests, replies; }
      first := ready.value.nextId;
      PagedNone(ready.value.process.pid, first);
      var tools: seq<Value> := [];
      var seen: set<string> := {};
      var cursor: Option<string> := None;
      for pages := 0 to Discovery.MAX_PAGES
        invariant Idle() && ready.Some? && ready.value.nextId == first + pages && |requests| == |replies| == pages
        invariant Discovery.Midway(requests, replies, tools, seen, cursor)
        invariant trace == start + Paged(ready.value.process.pid, first, requests, replies)
        invariant Operating(Tally(old(trace)), Tally(trace), 0)
      {
        ghost var asked, before := requests, replies;
        Discovery.Ask(requests, replies, tools, seen, cursor);
        PagedAsk(ready.value.process.pid, first, requests, cursor, replies);
        requests := requests + [cursor];
        ghost var id, waiting;
        var reply: Flow<Value>;
        reply, id, waiting := Exchange(true, cursor);
        if reply.Dropped? { return Dropped, start, first, requests, replies; }
        if reply.Failed? { return Failed(reply.failure), start, first, requests, replies; }
        Discovery.Answer(asked, before, tools, seen, cursor, reply.value);
        PagedAnswer(ready.value.process.pid, first, requests, before, reply.value);
        replies := replies + [reply.value];
        var page := Discovery.ReadPage(reply.value, tools);
        if page.Err? { return Failed(Rejected(page.error)), start, first, requests, replies; }
        if page.value.1.None? { return Done(page.value.0), start, first, requests, replies; }
        var next := page.value.1.value;
        if next == "" || next in seen { return Failed(Protocol), start, first, requests, replies; }
        Discovery.Continue(asked, before, tools, seen, cursor, reply.value, next);
        tools, seen, cursor := page.value.0, seen + {next}, Some(next);
      }
      Discovery.NotYet(requests, replies, tools, seen, cursor);
      return Failed(MessageLimit), start, first, requests, replies;
    }

    /** Discovery under a timeout and a shutdown signal; without a listing no process is left. */
    method DiscoverTools() returns (r: Flow<seq<Value>>)
      requires Idle()
      modifies this
      ensures old(trace) <= trace
      ensures Idle()
      ensures r.Done? ==> ready.Some? && |r.value| <= Discovery.MAX_TOOLS
                          && exists replies :: Discovery.Listing(replies) && r.value == Discovery.Concatenated(replies)
      ensures !r.Done? ==> ready.None? && Live(trace) == {}
      ensures Operating(Tally(old(trace)), Tally(trace), 0)
    {
      hide TraceOk;
      hide IdsBelow;
      ghost var start, first, requests, replies;
      r, start, first, requests, replies := ListTools();
      match r {
        case Done(_) =>
        case Failed(_) => Terminate();
        case Dropped => CancelAndTerminate();
      }
    }
  }

  function Rejected(failure: Discovery.Failure): Failure {
    match failure
    case Output => Output
    case Protocol => Protocol
    case MessageLimit => MessageLimit
  }

  /** Requests with consecutive ids, each followed by its reply; the last may have none. */
  ghost function Paged(pid: Pid, first: nat, requests: seq<Option<string>>, replies: seq<Value>): Trace
    requires |replies| <= |requests| <= |replies| + 1
    decreases |requests| + |replies|
  {
    if requests == [] then []
    else if |replies| < |requests| then
      Paged(pid, first, requests[..|replies|], replies) + [Sent(pid, ListTools(first + |replies|, requests[|replies|]))]
    else
      Paged(pid, first, requests, replies[..|replies| - 1])
      + [Received(pid, first + |replies| - 1, replies[|replies| - 1])]
  }

  lemma PagedNone(pid: Pid, first: nat)
    ensures Paged(pid, first, [], []) == []
  {}

  lemma PagedAsk(pid: Pid, first: nat, requests: seq<Option<string>>, cursor: Option<string>, replies: seq<Value>)
    requires |requests| == |replies|
    ensures Paged(pid, first, requests + [cursor], replies)
         == Paged(pid, first, requests, replies) + [Sent(pid, ListTools(first + |replies|, cursor))]
  {
    assert (requests + [cursor])[..|replies|] == requests;
  }

  lemma PagedAnswer(pid: Pid, first: nat, requests: seq<Option<string>>, replies: seq<Value>, reply: Value)
    requires |requests| == |replies| + 1
    ensures Paged(pid, first, requests, replies + [reply])
         == Paged(pid, first, requests, replies) + [Received(pid, first + |replies|, reply)]
  {
    assert (replies + [reply])[..|replies|] == replies;
  }

  /** The ids a negotiation has used up: one per request to the process that became ready. */
  function FirstId(revision: Revision, spawns: int): nat {
    if revision.Legacy? && spawns == 1 then 3 else 2
  }

  /** One negotiation: at most two processes, one discover and one initialize, and no call. */
  ghost predicate Negotiating(before: Counts, after: Counts) {
    Operating(before, after, 0)
  }

  /**
   * How a negotiation goes on from what decided its discover request. A modern description ends it;
   * any other result, or an error from the upstream, leads to the legacy handshake with the same
   * process; a closed connection leads to one with a new process, if one starts; anything else fails.
   */
  ghost predicate Follows(m: Incoming, before: Counts, after: Counts, r: Flow<Ready>) {
    && after.discovers == before.discovers + 1
    && if Completes(m, 1) then
         && after.spawns == before.spawns + 1
         && (|| (after.initializes == before.initializes && r.Done? && r.value.revision.Modern?)
             || (after.initializes == before.initializes + 1 && LegacyOnly(r)))
       else if Refuses(m, 1) then
         after.spawns == before.spawns + 1 && after.initializes == before.initializes + 1 && LegacyOnly(r)
       else if m.Closed? then
         || (after.spawns == before.spawns + 1 && after.initializes == before.initializes && r == Failed(Unavailable))
         || (after.spawns == before.spawns + 2 && after.initializes == before.initializes + 1 && LegacyOnly(r))
       else
         after.spawns == before.spawns + 1 && after.initializes == before.initializes && r.Failed?
  }

  ghost predicate LegacyOnly(r: Flow<Ready>) {
    r.Done? ==> r.value.revision.Legacy?
  }

  ghost predicate Operating(before: Counts, after: Counts, calls: nat) {
    && before.spawns <= after.spawns <= before.spawns + 2
    && before.discovers <= after.discovers <= before.discovers + 1
    && before.initializes <= after.initializes <= before.initializes + 1
    && before.calls <= after.calls <= before.calls + calls
  }

  /** The last two events are the call request and its reply, and the answer is adapted from that reply. */
  ghost predicate AnsweredCall(t: Trace, ready: Ready, adapt: Value -> Result<Value, ()>, answer: Value) {
    && |t| >= 2 && ready.nextId >= 1
    && t[|t| - 2] == Sent(ready.process.pid, CallTool(ready.nextId - 1))
    && t[|t| - 1].Received? && t[|t| - 1].pid == ready.process.pid && t[|t| - 1].id == ready.nextId - 1
    && adapt(t[|t| - 1].result) == Ok(answer)
  }

  /** The last three events: the call request, its cancellation, and the end of its process. */
  ghost predicate CancelledCall(t: Trace, id: nat) {
    && |t| >= 3
    && t[|t| - 1].Terminated?
    && t[|t| - 2] == Sent(t[|t| - 1].pid, Cancel(id))
    && t[|t| - 3] == Sent(t[|t| - 1].pid, CallTool(id))
  }
}
