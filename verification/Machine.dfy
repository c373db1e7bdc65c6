/**
 The supervisor as a state machine: `start`, `stop`, the restart handler, the
 three coordinators, the monitor tasks and the operating system, interleaved.

 `start` and the restart handler take one step at each point where they touch
 shared state (fork, logger, each submission, insertion into the registry), `stop`
 takes one for the removal and one for the kill, as does giving up after a failed
 submission, and a monitor takes one for reaping its child and one for sending its
 request. Any other step can come in between. Every other step is one critical
 section.

 Every foreign call that can fail is an outcome carried by the step. Components
 marked `history` only record what happened; no step looks at them to decide
 what to do.
 */
module Machine {
  import opened Wrappers
  import opened Tasks
  import opened Config

  /** An entry of the process registry. `child` and `root` are history: see `Birth`. */
  datatype Entry = Entry(config: ProcessConfig, pid: Pid, child: nat, root: nat)

  /** One fork, in the order of forking; `root` is the first child of its chain of restarts. */
  datatype Birth = Birth(pid: Pid, config: ProcessConfig, root: nat)

  /** What `start` or the restart handler has done so far for the child it forked. */
  datatype Stage = Spawned | Logged | Monitored | Measured

  datatype Flight = Flight(config: ProcessConfig, pid: Pid, child: nat, root: nat, stage: Stage)

  /** A flight belongs to one `start` command (named by its child) or to the restart handler. */
  datatype Who = Client(child: nat) | Restarter

  datatype Handler =
    | Idle
    | Discarding(name: string)                        // respawn said no; the registry removal is still to come
    | Respawning(config: ProcessConfig, root: nat)    // respawn said yes; about to fork
    | Placing                                         // owns the flight `Restarter`
    | Gone(panicked: bool)                            // returned, or panicked in `unwrap`

  datatype Message = Message(id: TaskId, pid: Pid, name: string, child: nat)

  /** A task channel and its coordinator: `held` is received but its handles are not yet registered. */
  datatype Channel = Channel(queue: seq<Message>, held: Option<TaskId>,
                             consumed: seq<TaskId>, lost: set<TaskId>)   // the last two are history

  datatype Monitor = Monitor(pid: Pid, name: string, child: nat)

  /** A child the kernel still knows: running, or exited and not yet waited for. */
  datatype Child = Child(number: nat, exited: bool)

  /** The task side of `AsyncRuntime`: its registry, its channels and what was aborted so far. */
  datatype Runtime = Runtime(
    table: Table,
    logging: Channel,
    metrics: Channel,
    lifecycle: Channel,
    aborted: set<Handle>
  )

  datatype Past = Past(
    births: seq<Birth>,      // every fork
    inserted: seq<Entry>,    // every entry put into the registry, in order
    signalled: set<nat>,     // the children sent SIGKILL
    leaked: set<nat>         // the children whose pipes could not be set up after the fork
  )

  datatype State = State(
    entries: map<string, Entry>,
    runtime: Runtime,
    monitors: map<TaskId, Monitor>,    // waiting for their child to exit
    sending: map<TaskId, Monitor>,     // have reaped it, and will send their request even if aborted now
    restarts: seq<string>,
    handler: Handler,
    flights: map<Who, Flight>,
    condemned: map<nat, Pid>,          // given up, by `stop` or after a failed submission, but not killed yet
    os: map<Pid, Child>,
    past: Past               // history
  )

  const EMPTY_CHANNEL := Channel([], None, [], {})

  const EMPTY_RUNTIME := Runtime(EMPTY_TABLE, EMPTY_CHANNEL, EMPTY_CHANNEL, EMPTY_CHANNEL, {})

  const INIT := State(map[], EMPTY_RUNTIME, map[], map[], [], Idle, map[], map[], map[], Past([], [], {}, {}))

  datatype ForkOutcome =
    | Refused                    // no pipe or no fork: there is no child
    | StreamsFailed(pid: Pid)    // the child exists, but the parent fails to set up its pipes
    | Forked(pid: Pid)

  datatype Step =
    | Start(config: ProcessConfig, fork: ForkOutcome)
    | Abandon(who: Who)                        // opening the metrics files or the logger failed
    | SubmitLog(who: Who, sent: bool)
    | SubmitMonitor(who: Who, sent: bool)
    | SubmitMetrics(who: Who, sent: bool)
    | Insert(who: Who)
    | Stop(name: string)                       // removes the entry
    | Finish(child: nat)                       // aborts the tasks of a condemned child and sends it SIGKILL
    | Receive                                  // the handler takes a request
    | Discard
    | Refork(fork: ForkOutcome)
    | Recv(ty: TaskType)                       // a coordinator receives a task and spawns its futures
    | Attach(ty: TaskType)                     // ... and registers their handles
    | Reap(id: TaskId)                         // a monitor finds its child exited and waits for it
    | Send(id: TaskId)                         // ... and asks for a restart
    | MonitorFails(id: TaskId, reason: string)
    | TaskFails(id: TaskId, reason: string)    // a streaming or metrics future ends with an error
    | Exit(pid: Pid)

  // ----- what the runtime does -----

  function Chan(r: Runtime, ty: TaskType): Channel {
    match ty
    case Logging => r.logging
    case Metrics => r.metrics
    case Process => r.lifecycle
  }

  function WithChan(r: Runtime, ty: TaskType, c: Channel): Runtime {
    match ty
    case Logging => r.(logging := c)
    case Metrics => r.(metrics := c)
    case Process => r.(lifecycle := c)
  }

  /** The handles a coordinator registers, in the order it registers them: stderr before stdout for logging. */
  function SpawnedHandles(ty: TaskType, id: TaskId): seq<Handle> {
    if ty == Logging then [Handle(id, 1), Handle(id, 0)] else [Handle(id, 0)]
  }

  function WithHandles(t: Table, id: TaskId, hs: seq<Handle>): Table
    decreases |hs|
  {
    if hs == [] then t else WithHandles(WithHandle(t, id, hs[0]), id, hs[1..])
  }

  /** A submission: register the task and send it to its coordinator; the send can fail. */
  function Post(r: Runtime, ty: TaskType, f: Flight, sent: bool): Runtime {
    var id := r.table.next;
    var c := Chan(r, ty);
    var message := Message(id, f.pid, f.config.name, f.child);
    WithChan(r.(table := Admit(r.table, f.pid, ty)), ty,
             if sent then c.(queue := c.queue + [message]) else c.(lost := c.lost + {id}))
  }

  ghost function KillTasks(r: Runtime, pid: Pid): Runtime {
    r.(table := Kill(r.table, pid), aborted := r.aborted + KillHandles(r.table, pid))
  }

  function Received(r: Runtime, ty: TaskType): Runtime
    requires Chan(r, ty).queue != []
  {
    var c := Chan(r, ty);
    var id := c.queue[0].id;
    WithChan(r, ty, c.(queue := c.queue[1..], held := Some(id), consumed := c.consumed + [id]))
  }

  function Attached(r: Runtime, ty: TaskType): Runtime
    requires Chan(r, ty).held.Some?
  {
    var id := Chan(r, ty).held.value;
    WithChan(r, ty, Chan(r, ty).(held := None)).(table := WithHandles(r.table, id, SpawnedHandles(ty, id)))
  }

  function Marked(r: Runtime, id: TaskId, reason: string): Runtime {
    r.(table := WithStatus(r.table, id, Failed(reason)))
  }

  // ----- the pieces of a step -----

  /** The number of the next child to be forked. */
  function Newborn(s: State): nat {
    |s.past.births|
  }

  function Give(s: State, pid: Pid, config: ProcessConfig, root: nat): State {
    s.(past := s.past.(births := s.past.births + [Birth(pid, config, root)]),
       os := s.os[pid := Child(Newborn(s), false)])
  }

  function Launch(s: State, who: Who, pid: Pid, config: ProcessConfig, root: nat): State {
    Give(s, pid, config, root).(flights := s.flights[who := Flight(config, pid, Newborn(s), root, Spawned)])
  }

  function Leak(s: State, pid: Pid, config: ProcessConfig, root: nat): State {
    var s' := Give(s, pid, config, root);
    s'.(past := s'.past.(leaked := s.past.leaked + {Newborn(s)}))
  }

  /** SIGKILL reaches whatever child the kernel knows under the pid. */
  function Signal(s: State, pid: Pid): State {
    if pid in s.os then s.(past := s.past.(signalled := s.past.signalled + {s.os[pid].number})) else s
  }

  /** The handler's loop ends and drops the receiving end of its channel. */
  function HandlerEnds(s: State, panicked: bool): State {
    s.(handler := Gone(panicked), restarts := [])
  }

  function Advance(s: State, who: Who, stage: Stage, r: Runtime): State
    requires who in s.flights
  {
    s.(flights := s.flights[who := s.flights[who].(stage := stage)], runtime := r)
  }

  function Drop(s: State, who: Who): State {
    var s' := s.(flights := s.flights - {who});
    if who == Restarter then HandlerEnds(s', false) else s'
  }

  /** After a failed submission the child is condemned; a handler that gives up takes no more requests. */
  function GiveUp(s: State, who: Who, r: Runtime): State
    requires who in s.flights
  {
    var f := s.flights[who];
    Drop(s.(runtime := r, condemned := s.condemned[f.child := f.pid]), who)
  }

  // ----- the steps -----

  function DoStart(s: State, config: ProcessConfig, fork: ForkOutcome): State {
    if config.name in s.entries then s
    else match fork
      case Refused => s
      case StreamsFailed(pid) => Leak(s, pid, config, Newborn(s))
      case Forked(pid) => Launch(s, Client(Newborn(s)), pid, config, Newborn(s))
  }

  function DoAbandon(s: State, who: Who): State
    requires who in s.flights
  {
    Drop(Signal(s, s.flights[who].pid), who)
  }

  function DoSubmitLog(s: State, who: Who, sent: bool): State
    requires who in s.flights
  {
    Advance(s, who, Logged, Post(s.runtime, Logging, s.flights[who], sent))
  }

  /** A submission that first checks that the pid has no task of the type yet. */
  ghost function DoSubmit(s: State, who: Who, ty: TaskType, sent: bool, stage: Stage): State
    requires who in s.flights
  {
    var f := s.flights[who];
    if ListsType(s.runtime.table, f.pid, ty) then GiveUp(s, who, s.runtime)
    else if sent then Advance(s, who, stage, Post(s.runtime, ty, f, true))
    else GiveUp(s, who, Post(s.runtime, ty, f, false))
  }

  function DoInsert(s: State, who: Who): State
    requires who in s.flights
  {
    var f := s.flights[who];
    var e := Entry(f.config, f.pid, f.child, f.root);
    s.(entries := s.entries[f.config.name := e],
       past := s.past.(inserted := s.past.inserted + [e]),
       flights := s.flights - {who},
       handler := if who == Restarter then Idle else s.handler)
  }

  function DoStop(s: State, name: string): State {
    if name !in s.entries then s
    else
      var e := s.entries[name];
      s.(entries := s.entries - {name}, condemned := s.condemned[e.child := e.pid])
  }

  ghost function DoFinish(s: State, child: nat): State
    requires child in s.condemned
  {
    var pid := s.condemned[child];
    Signal(s, pid).(condemned := s.condemned - {child}, runtime := KillTasks(s.runtime, pid))
  }

  ghost function DoReceive(s: State): State
    requires s.restarts != []
  {
    var name := s.restarts[0];
    if name !in s.entries then HandlerEnds(s, true)
    else
      var e := s.entries[name];
      var (again, config) := Respawn(e.config);
      s.(entries := s.entries - {name},
         restarts := s.restarts[1..],
         runtime := KillTasks(s.runtime, e.pid),
         handler := if again then Respawning(config, e.root) else Discarding(name))
  }

  function DoDiscard(s: State): State
    requires s.handler.Discarding?
  {
    s.(entries := s.entries - {s.handler.name}, handler := Idle)
  }

  function DoRefork(s: State, fork: ForkOutcome): State
    requires s.handler.Respawning?
  {
    match fork
    case Refused => HandlerEnds(s, false)
    case StreamsFailed(pid) => HandlerEnds(Leak(s, pid, s.handler.config, s.handler.root), false)
    case Forked(pid) => Launch(s, Restarter, pid, s.handler.config, s.handler.root).(handler := Placing)
  }

  function DoRecv(s: State, ty: TaskType): State
    requires Chan(s.runtime, ty).queue != []
  {
    var m := Chan(s.runtime, ty).queue[0];
    s.(runtime := Received(s.runtime, ty),
       monitors := if ty == Process then s.monitors[m.id := Monitor(m.pid, m.name, m.child)] else s.monitors)
  }

  function DoReap(s: State, id: TaskId): State
    requires id in s.monitors
  {
    var m := s.monitors[id];
    s.(os := s.os - {m.pid}, monitors := s.monitors - {id}, sending := s.sending[id := m])
  }

  /** Once the handler is gone the send fails and only the monitor itself panics. */
  function DoSend(s: State, id: TaskId): State
    requires id in s.sending
  {
    s.(sending := s.sending - {id},
       restarts := if s.handler.Gone? then s.restarts else s.restarts + [s.sending[id].name])
  }

  function DoExit(s: State, pid: Pid): State
    requires pid in s.os
  {
    s.(os := s.os[pid := s.os[pid].(exited := true)])
  }

  ghost predicate Free(s: State, fork: ForkOutcome) {
    fork == Refused || fork.pid !in s.os
  }

  ghost predicate At(s: State, who: Who, stage: Stage) {
    who in s.flights && s.flights[who].stage == stage
  }

  ghost predicate Armed(s: State, id: TaskId) {
    id in s.monitors && Handle(id, 0) !in s.runtime.aborted
  }

  ghost predicate Enabled(s: State, step: Step) {
    match step
    case Start(_, fork) => Free(s, fork)
    case Abandon(who) => At(s, who, Spawned)
    case SubmitLog(who, _) => At(s, who, Spawned)
    case SubmitMonitor(who, _) => At(s, who, Logged)
    case SubmitMetrics(who, _) => At(s, who, Monitored)
    case Insert(who) => At(s, who, Measured)
    case Stop(_) => true
    case Finish(child) => child in s.condemned
    case Receive => s.handler == Idle && s.restarts != []
    case Discard => s.handler.Discarding?
    case Refork(fork) => s.handler.Respawning? && Free(s, fork)
    case Recv(ty) => Chan(s.runtime, ty).queue != [] && Chan(s.runtime, ty).held == None
    case Attach(ty) => Chan(s.runtime, ty).held.Some?
    case Reap(id) => Armed(s, id) && s.monitors[id].pid in s.os && s.os[s.monitors[id].pid].exited
    case Send(id) => id in s.sending
    case MonitorFails(id, _) => Armed(s, id)
    case TaskFails(id, _) => id in s.runtime.table.tasks
    case Exit(pid) => pid in s.os
  }

  ghost function Next(s: State, step: Step): State
    requires Enabled(s, step)
  {
    match step
    case Start(config, fork) => DoStart(s, config, fork)
    case Abandon(who) => DoAbandon(s, who)
    case SubmitLog(who, sent) => DoSubmitLog(s, who, sent)
    case SubmitMonitor(who, sent) => DoSubmit(s, who, Process, sent, Monitored)
    case SubmitMetrics(who, sent) => DoSubmit(s, who, Metrics, sent, Measured)
    case Insert(who) => DoInsert(s, who)
    case Stop(name) => DoStop(s, name)
    case Finish(child) => DoFinish(s, child)
    case Receive => DoReceive(s)
    case Discard => DoDiscard(s)
    case Refork(fork) => DoRefork(s, fork)
    case Recv(ty) => DoRecv(s, ty)
    case Attach(ty) => s.(runtime := Attached(s.runtime, ty))
    case Reap(id) => DoReap(s, id)
    case Send(id) => DoSend(s, id)
    case MonitorFails(id, reason) =>
      s.(monitors := s.monitors - {id}, runtime := Marked(s.runtime, id, reason))
    case TaskFails(id, reason) => s.(runtime := Marked(s.runtime, id, reason))
    case Exit(pid) => DoExit(s, pid)
  }

  /** The state after running `steps` from `s`, if every one of them was enabled in its turn. */
  ghost function Exec(s: State, steps: seq<Step>): Option<State> {
    if steps == [] then Some(s)
    else
      var n := |steps| - 1;
      match Exec(s, steps[..n])
      case None => None
      case Some(m) => if Enabled(m, steps[n]) then Some(Next(m, steps[n])) else None
  }

  ghost predicate Reaches(steps: seq<Step>, s: State) {
    Exec(INIT, steps) == Some(s)
  }

  lemma {:induction false} ExecConcat(s: State, a: seq<Step>, m: State, b: seq<Step>)
    requires Exec(s, a) == Some(m)
    ensures Exec(s, a + b) == Exec(m, b)
  {
    if b == [] {
      assert a + b == a;
    } else {
      var n := |b| - 1;
      ExecConcat(s, a, m, b[..n]);
      assert (a + b)[..|a + b| - 1] == a + b[..n];
    }
  }

  lemma ExecOne(s: State, step: Step)
    requires Enabled(s, step)
    ensures Exec(s, [step]) == Some(Next(s, step))
  {
    assert [step][..0] == [];
    assert Exec(s, []) == Some(s);
  }

  lemma Then(s: State, steps: seq<Step>, t: State, step: Step)
    requires Exec(s, steps) == Some(t) && Enabled(t, step)
    ensures Exec(s, steps + [step]) == Some(Next(t, step))
  {
    ExecOne(t, step);
    ExecConcat(s, steps, t, [step]);
  }
}
