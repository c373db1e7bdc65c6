/**
 The two objects of the daemon that change in place: `AsyncRuntime` of
 src/threads.rs and `ProcessManager` of src/core/device.rs. Every method is
 proved to perform exactly the step, or the sequence of steps, of the state
 machine that it stands for.
 */
module Manager {
  import opened Wrappers
  import opened Tasks
  import opened Config
  import opened Machine
  import opened Delivery
  import opened Admission

  datatype SubmitError = InconsistentRuntime | TaskSendError

  /** `kill_runtime`: every handle of every task is aborted and dropped. */
  ghost function EveryHandle(t: Table): set<Handle> {
    set i, h | i in t.tasks && h in t.tasks[i].handles :: h
  }

  function Disarmed(t: Table, ids: set<TaskId>): Table {
    t.(tasks := map i | i in t.tasks :: if i in ids then t.tasks[i].(handles := []) else t.tasks[i])
  }

  class AsyncRuntime {
    const tRegistry: TaskRegistry
    var logging: Channel
    var metrics: Channel
    var lifecycle: Channel
    var aborted: set<Handle>

    ghost function Value(): Runtime
      reads this, tRegistry
    {
      Runtime(tRegistry.Contents(), logging, metrics, lifecycle, aborted)
    }

    constructor ()
      ensures Value() == EMPTY_RUNTIME && fresh(tRegistry)
    {
      tRegistry := new TaskRegistry();
      logging, metrics, lifecycle := EMPTY_CHANNEL, EMPTY_CHANNEL, EMPTY_CHANNEL;
      aborted := {};
    }

    /** Registers and sends under one lock; `sent` is the outcome of the send. */
    method Submit(ty: TaskType, task: Flight, sent: bool) returns (id: TaskId)
      modifies this, tRegistry
      ensures Value() == Post(old(Value()), ty, task, sent)
      ensures id == old(tRegistry.next)
    {
      id := tRegistry.Allocate();
      tRegistry.RegisterTask(id, task.pid, ty);
      var message := Message(id, task.pid, task.config.name, task.child);
      match ty {
        case Logging =>
          logging := if sent then logging.(queue := logging.queue + [message])
                     else logging.(lost := logging.lost + {id});
        case Metrics =>
          metrics := if sent then metrics.(queue := metrics.queue + [message])
                     else metrics.(lost := metrics.lost + {id});
        case Process =>
          lifecycle := if sent then lifecycle.(queue := lifecycle.queue + [message])
                       else lifecycle.(lost := lifecycle.lost + {id});
      }
    }

    method SubmitLoggingTask(task: Flight, sent: bool) returns (r: Result<TaskId, SubmitError>)
      modifies this, tRegistry
      ensures Value() == Post(old(Value()), Logging, task, sent)
      ensures r == if sent then Success(old(tRegistry.next)) else Failure(TaskSendError)
    {
      var id := Submit(Logging, task, sent);
      r := if sent then Success(id) else Failure(TaskSendError);
    }

    /** The metrics and process submissions first look for a task of the same type, whatever its status. */
    method SubmitUnique(ty: TaskType, task: Flight, sent: bool) returns (r: Result<TaskId, SubmitError>)
      modifies this, tRegistry
      ensures var t := old(Value()).table;
              if ListsType(t, task.pid, ty)
              then Value() == old(Value()) && r == Failure(InconsistentRuntime)
              else Value() == Post(old(Value()), ty, task, sent)
                   && r == if sent then Success(t.next) else Failure(TaskSendError)
    {
      var duplicate := tRegistry.HasTaskOfType(task.pid, ty);
      if duplicate {
        return Failure(InconsistentRuntime);
      }
      var id := Submit(ty, task, sent);
      r := if sent then Success(id) else Failure(TaskSendError);
    }

    method KillTasksByPid(pid: Pid)
      modifies this, tRegistry
      ensures Value() == KillTasks(old(Value()), pid)
    {
      var hs := tRegistry.KillByPid(pid);
      aborted := aborted + hs;
    }

    /** Aborts every task of every pid and forgets the handles; statuses stay as they are. */
    method KillRuntime()
      modifies this, tRegistry
      ensures Value() == old(Value()).(table := Disarmed(old(Value()).table, old(tRegistry.tasks.Keys)),
                                       aborted := old(aborted) + EveryHandle(old(Value()).table))
      ensures tRegistry.tasks.Keys == old(tRegistry.tasks).Keys
      ensures forall i | i in tRegistry.tasks :: tRegistry.tasks[i] == old(tRegistry.tasks)[i].(handles := [])
    {
      ghost var was := tRegistry.Contents();
      ghost var before := aborted;
      var rest := tRegistry.tasks.Keys;
      ghost var done: set<TaskId> := {};
      assert Disarmed(was, done).tasks == was.tasks;
      while rest != {}
        invariant rest + done == was.tasks.Keys && rest !! done
        invariant tRegistry.Contents() == Disarmed(was, done)
        invariant aborted == before + set i, h | i in done && h in was.tasks[i].handles :: h
        invariant logging == old(logging) && metrics == old(metrics) && lifecycle == old(lifecycle)
        decreases rest
      {
        var id :| id in rest;
        assert id in was.tasks.Keys;
        var task := tRegistry.tasks[id];
        aborted := aborted + set h | h in task.handles;
        tRegistry.tasks := tRegistry.tasks[id := task.(handles := [])];
        rest, done := rest - {id}, done + {id};
        assert tRegistry.tasks == Disarmed(was, done).tasks;
      }
      assert done == was.tasks.Keys;
    }

    method ReceiveTask(ty: TaskType) returns (m: Message)
      requires Chan(Value(), ty).queue != [] && Chan(Value(), ty).held == None
      modifies this
      ensures Value() == Received(old(Value()), ty) && m == Chan(old(Value()), ty).queue[0]
    {
      var c := match ty case Logging => logging case Metrics => metrics case Process => lifecycle;
      m := c.queue[0];
      c := c.(queue := c.queue[1..], held := Some(m.id), consumed := c.consumed + [m.id]);
      match ty {
        case Logging => logging := c;
        case Metrics => metrics := c;
        case Process => lifecycle := c;
      }
    }

    /** The coordinator registers the handles of the futures it spawned; a missing task is ignored. */
    method AttachHandles(ty: TaskType)
      requires Chan(Value(), ty).held.Some?
      modifies this, tRegistry
      ensures Value() == Attached(old(Value()), ty)
      ensures var id := Chan(old(Value()), ty).held.value;
              id in old(tRegistry.tasks) ==>
                && id in tRegistry.tasks
                && tRegistry.tasks[id].handles
                   == old(tRegistry.tasks)[id].handles
                      + (if ty == Logging then [Handle(id, 1), Handle(id, 0)] else [Handle(id, 0)])
    {
      var id: TaskId;
      match ty {
        case Logging => id := logging.held.value; logging := logging.(held := None);
        case Metrics => id := metrics.held.value; metrics := metrics.(held := None);
        case Process => id := lifecycle.held.value; lifecycle := lifecycle.(held := None);
      }
      var hs := SpawnedHandles(ty, id);
      ghost var was := tRegistry.Contents();
      for k := 0 to |hs|
        invariant logging == if ty == Logging then old(logging).(held := None) else old(logging)
        invariant metrics == if ty == Metrics then old(metrics).(held := None) else old(metrics)
        invariant lifecycle == if ty == Process then old(lifecycle).(held := None) else old(lifecycle)
        invariant aborted == old(aborted)
        invariant WithHandles(tRegistry.Contents(), id, hs[k..]) == WithHandles(was, id, hs)
      {
        assert hs[k..][1..] == hs[k + 1..];
        var _ := tRegistry.AddHandle(id, hs[k]);
      }
      if id in was.tasks {
        WithHandlesEffect(was, id, hs);
      }
    }

    method MarkFailed(id: TaskId, reason: string)
      modifies tRegistry
      ensures Value() == Marked(old(Value()), id, reason)
      ensures id in old(tRegistry.tasks) ==>
                tRegistry.tasks == old(tRegistry.tasks)[id := old(tRegistry.tasks)[id].(status := Failed(reason))]
    {
      var _ := tRegistry.UpdateStatus(id, Failed(reason));
    }
  }

  datatype CommandResult =
    | ProcessStarted(name: string, pid: Pid)
    | ProcessStopped(name: string)
    | Error

  /** The outcomes of the foreign calls made while a child is started. */
  datatype Plan = Plan(fork: ForkOutcome, prepared: bool, logSent: bool, monitorSent: bool, metricsSent: bool)

  /** The value a handler owns once it has removed an entry from the registry. */
  class CurrentTask {
    var config: ProcessConfig
    const pid: Pid

    constructor (e: Entry)
      ensures config == e.config && pid == e.pid
    {
      config := e.config;
      pid := e.pid;
    }

    /** Spends the restart budget in place. */
    method RespawnInPlace() returns (again: bool)
      modifies this
      ensures again == Respawn(old(config)).0
      ensures config == Respawn(old(config)).1
    {
      match config.restart {
        case Capped(limit) =>
          if limit <= 1 {
            again := false;
          } else {
            config := config.(restart := Capped(limit - 1));
            again := true;
          }
        case NoRestart => again := false;
        case Infinite => again := true;
      }
    }
  }

  function EntryOf(f: Flight): Entry {
    Entry(f.config, f.pid, f.child, f.root)
  }

  /** Neither of the two duplicate checks stops the flight. */
  ghost predicate ChecksPass(r: Runtime, f: Flight) {
    && !ListsType(r.table, f.pid, Process)
    && !ListsType(Post(r, Process, f, true).table, f.pid, Metrics)
  }

  /** Both checks pass exactly if the pid has never had a process task. */
  lemma ChecksPassIffUnwatched(r: Runtime, f: Flight, sent: bool)
    requires Agree(r.table) && MetricsFollowProcess(r.table)
    ensures ChecksPass(Post(r, Logging, f, sent), f) <==> !HasTask(r.table, f.pid, Process)
    ensures Post(r, Logging, f, sent).table == Admit(r.table, f.pid, Logging)
  {
    var t := Admit(r.table, f.pid, Logging);
    var u := Admit(t, f.pid, Process);
    AdmitKeepsAgree(r.table, f.pid, Logging);
    AdmitKeepsAgree(t, f.pid, Process);
    DuplicateCheckIsExact(t, f.pid, Process);
    DuplicateCheckIsExact(u, f.pid, Metrics);
    AdmitHas(r.table, f.pid, Logging, f.pid, Process);
    AdmitHas(r.table, f.pid, Logging, f.pid, Metrics);
    AdmitHas(t, f.pid, Process, f.pid, Metrics);
  }

  lemma OnlyTheNewRuntimeCounts(s: State, who: Who, r: Runtime)
    requires who in s.flights
    ensures GiveUp(s.(runtime := r), who, r) == GiveUp(s, who, r)
  {
  }

  lemma SubmitOutcome(s: State, who: Who, ty: TaskType, sent: bool, stage: Stage)
    requires who in s.flights
    ensures var f, t := s.flights[who], DoSubmit(s, who, ty, sent, stage);
            && t.entries == s.entries
            && if sent && !ListsType(s.runtime.table, f.pid, ty)
               then && t.flights == s.flights[who := f.(stage := stage)] && t.handler == s.handler
                    && t.runtime == Post(s.runtime, ty, f, true)
               else GaveUp(t, who, f.child)
  {
    GiveUpOutcome(s, who, s.runtime);
    GiveUpOutcome(s, who, Post(s.runtime, ty, s.flights[who], false));
  }

  predicate GaveUp(t: State, who: Who, child: nat) {
    who !in t.flights && child in t.condemned && (who == Restarter ==> t.handler == Gone(false))
  }

  lemma GiveUpOutcome(s: State, who: Who, r: Runtime)
    requires who in s.flights
    ensures GaveUp(GiveUp(s, who, r), who, s.flights[who].child) && GiveUp(s, who, r).entries == s.entries
  {
  }

  class ProcessManager {
    const runtime: AsyncRuntime
    var registry: map<string, Entry>
    var restarts: seq<string>
    var monitors: map<TaskId, Monitor>
    var sending: map<TaskId, Monitor>
    // how far the handler and the commands in progress have come, the kernel, and history
    var handler: Handler
    var flights: map<Who, Flight>
    var condemned: map<nat, Pid>
    var os: map<Pid, Child>
    var past: Past

    ghost function Now(): State
      reads this, runtime, runtime.tRegistry
    {
      State(registry, runtime.Value(), monitors, sending, restarts, handler, flights, condemned, os, past)
    }

    constructor ()
      ensures Now() == INIT && fresh(runtime) && fresh(runtime.tRegistry)
    {
      runtime := new AsyncRuntime();
      registry, restarts, monitors, sending := map[], [], map[], map[];
      handler, flights, condemned, os, past := Idle, map[], map[], map[], Past([], [], {}, {});
    }

    /** `kill` fails exactly if the kernel knows nobody under the pid, as once the child was reaped. */
    method Sigkill(pid: Pid) returns (hit: bool)
      modifies this`past
      ensures Now() == Signal(old(Now()), pid)
      ensures hit <==> pid in os
    {
      hit := pid in os;
      if hit {
        past := past.(signalled := past.signalled + {os[pid].number});
      }
    }

    /** A flight fails: `start` returns an error, the handler's loop returns and drops its receiver. */
    method EndFlight(who: Who)
      modifies this
      ensures Now() == Drop(old(Now()), who)
    {
      flights := flights - {who};
      if who == Restarter {
        handler, restarts := Gone(false), [];
      }
    }

    /** The name check of `start` and its fork. */
    method BeginStart(config: ProcessConfig, fork: ForkOutcome) returns (forked: bool)
      requires Free(Now(), fork)
      modifies this
      ensures Now() == DoStart(old(Now()), config, fork)
      ensures forked <==> config.name !in old(registry) && fork.Forked?
    {
      if config.name in registry {
        return false;
      }
      forked := fork.Forked?;
      if !fork.Refused? {
        var child := |past.births|;
        past := past.(births := past.births + [Birth(fork.pid, config, child)]);
        os := os[fork.pid := Child(child, false)];
        if fork.StreamsFailed? {
          past := past.(leaked := past.leaked + {child});
        } else {
          flights := flights[Client(child) := Flight(config, fork.pid, child, child, Spawned)];
        }
      }
    }

    /** The fork of the handler, with the configuration `respawn` left. */
    method BeginRespawn(fork: ForkOutcome) returns (forked: bool)
      requires handler.Respawning? && Free(Now(), fork)
      modifies this
      ensures Now() == DoRefork(old(Now()), fork)
      ensures forked <==> fork.Forked?
    {
      forked := fork.Forked?;
      var config, root := handler.config, handler.root;
      if !fork.Refused? {
        var child := |past.births|;
        past := past.(births := past.births + [Birth(fork.pid, config, root)]);
        os := os[fork.pid := Child(child, false)];
        if fork.StreamsFailed? {
          past := past.(leaked := past.leaked + {child});
        } else {
          flights := flights[Restarter := Flight(config, fork.pid, child, root, Spawned)];
          handler := Placing;
        }
      }
      if !forked {
        handler, restarts := Gone(false), [];
      }
    }

    /** The metrics files or the logger cannot be opened. */
    method GiveUpEarly(who: Who)
      requires At(Now(), who, Spawned)
      modifies this
      ensures Now() == DoAbandon(old(Now()), who)
    {
      var _ := Sigkill(flights[who].pid);
      EndFlight(who);
    }

    /** The outcome of the logging submission is ignored. */
    method RegisterLogging(who: Who, sent: bool)
      requires At(Now(), who, Spawned)
      modifies this, runtime, runtime.tRegistry
      ensures Now() == DoSubmitLog(old(Now()), who, sent)
    {
      var _ := runtime.SubmitLoggingTask(flights[who], sent);
      flights := flights[who := flights[who].(stage := Logged)];
    }

    /** Aborts a condemned child's tasks and sends it SIGKILL. */
    method FinishKill(child: nat) returns (hit: bool)
      requires child in condemned
      modifies this, runtime, runtime.tRegistry
      ensures Now() == DoFinish(old(Now()), child)
      ensures hit <==> old(condemned)[child] in os
    {
      var pid := condemned[child];
      condemned := condemned - {child};
      runtime.KillTasksByPid(pid);
      hit := Sigkill(pid);
    }

    /** A flight gives up: its child is to be killed. */
    method Condemn(who: Who)
      requires who in flights
      modifies this
      ensures Now() == GiveUp(old(Now()), who, old(Now()).runtime)
    {
      condemned := condemned[flights[who].child := flights[who].pid];
      EndFlight(who);
    }

    /** The process or metrics submission; a failed one condemns the child. */
    method RegisterUnique(who: Who, ty: TaskType, sent: bool, stage: Stage) returns (ok: bool)
      requires who in flights
      modifies this, runtime, runtime.tRegistry
      ensures Now() == DoSubmit(old(Now()), who, ty, sent, stage)
      ensures ok <==> sent && !ListsType(old(Now()).runtime.table, old(flights)[who].pid, ty)
    {
      var r := runtime.SubmitUnique(ty, flights[who], sent);
      ok := r.Success?;
      if ok {
        flights := flights[who := flights[who].(stage := stage)];
      } else {
        OnlyTheNewRuntimeCounts(old(Now()), who, Now().runtime);
        Condemn(who);
      }
    }

    method Enter(who: Who)
      requires At(Now(), who, Measured)
      modifies this
      ensures Now() == DoInsert(old(Now()), who)
    {
      var task := flights[who];
      var entry := Entry(task.config, task.pid, task.child, task.root);
      registry := registry[task.config.name := entry];
      past := past.(inserted := past.inserted + [entry]);
      flights := flights - {who};
      if who == Restarter {
        handler := Idle;
      }
    }

    /**
     From the fork on, `start` and the handler do the same things in the same order.
     Uninterrupted, they succeed exactly if every call does, except that of the logger's
     submission, and the pid has never had a process task.
     */
    method Place(who: Who, plan: Plan) returns (ok: bool, ghost steps: seq<Step>)
      requires At(Now(), who, Spawned)
      modifies this, runtime, runtime.tRegistry
      ensures Exec(old(Now()), steps) == Some(Now())
      ensures registry == if ok then old(registry)[old(flights)[who].config.name := EntryOf(old(flights)[who])]
                          else old(registry)
      ensures who !in flights && (who == Restarter ==> handler == if ok then Idle else Gone(false))
      ensures ok ==> plan.prepared && plan.monitorSent && plan.metricsSent
      ensures var t, pid := old(Now()).runtime.table, old(flights)[who].pid;
              Agree(t) && MetricsFollowProcess(t) && plan.prepared && plan.monitorSent && plan.metricsSent ==>
                (ok <==> !HasTask(t, pid, Process))
    {
      ghost var s0 := Now();
      if !plan.prepared {
        GiveUpEarly(who);
        ExecOne(s0, Abandon(who));
        return false, [Abandon(who)];
      }
      RegisterLogging(who, plan.logSent);
      ExecOne(s0, SubmitLog(who, plan.logSent));
      if Agree(s0.runtime.table) && MetricsFollowProcess(s0.runtime.table) {
        ChecksPassIffUnwatched(s0.runtime, flights[who], plan.logSent);
      }
      ok, steps := PlaceLogged(who, plan, s0, [SubmitLog(who, plan.logSent)]);
    }

    method CleanUp(child: nat, ghost s0: State, ghost before: seq<Step>) returns (ghost steps: seq<Step>)
      requires child in condemned && Exec(s0, before) == Some(Now())
      modifies this, runtime, runtime.tRegistry
      ensures Exec(s0, steps) == Some(Now())
      ensures registry == old(registry) && flights == old(flights) && handler == old(handler)
    {
      ghost var s1 := Now();
      var _ := FinishKill(child);
      Then(s0, before, s1, Finish(child));
      steps := before + [Finish(child)];
    }

    /** A checked submission and, if it fails, the cleanup right after it. */
    method SubmitOrCleanUp(who: Who, ty: TaskType, sent: bool, stage: Stage, ghost s0: State,
                           ghost after: seq<Step>) returns (ok: bool, ghost steps: seq<Step>)
      requires who in flights && Exec(s0, after) == Some(DoSubmit(Now(), who, ty, sent, stage))
      modifies this, runtime, runtime.tRegistry
      ensures Exec(s0, steps) == Some(Now()) && registry == old(registry)
      ensures ok <==> sent && !ListsType(old(Now()).runtime.table, old(flights)[who].pid, ty)
      ensures ok ==> && flights == old(flights)[who := old(flights)[who].(stage := stage)]
                     && handler == old(handler)
                     && runtime.Value() == Post(old(runtime.Value()), ty, old(flights)[who], true)
      ensures !ok ==> who !in flights && (who == Restarter ==> handler == Gone(false))
    {
      SubmitOutcome(Now(), who, ty, sent, stage);
      var child := flights[who].child;
      ok := RegisterUnique(who, ty, sent, stage);
      steps := after;
      if !ok {
        steps := CleanUp(child, s0, steps);
      }
    }

    method PlaceLogged(who: Who, plan: Plan, ghost s0: State, ghost before: seq<Step>)
      returns (ok: bool, ghost steps: seq<Step>)
      requires At(Now(), who, Logged) && Exec(s0, before) == Some(Now())
      modifies this, runtime, runtime.tRegistry
      ensures Exec(s0, steps) == Some(Now())
      ensures registry == if ok then old(registry)[old(flights)[who].config.name := EntryOf(old(flights)[who])]
                          else old(registry)
      ensures who !in flights && (who == Restarter ==> handler == if ok then Idle else Gone(false))
      ensures ok <==> plan.monitorSent && plan.metricsSent && ChecksPass(old(Now()).runtime, old(flights)[who])
    {
      Then(s0, before, Now(), SubmitMonitor(who, plan.monitorSent));
      ok, steps := SubmitOrCleanUp(who, Process, plan.monitorSent, Monitored, s0,
                                   before + [SubmitMonitor(who, plan.monitorSent)]);
      if ok {
        ok, steps := PlaceMonitored(who, plan, s0, steps);
      }
    }

    method PlaceMonitored(who: Who, plan: Plan, ghost s0: State, ghost before: seq<Step>)
      returns (ok: bool, ghost steps: seq<Step>)
      requires At(Now(), who, Monitored) && Exec(s0, before) == Some(Now())
      modifies this, runtime, runtime.tRegistry
      ensures Exec(s0, steps) == Some(Now())
      ensures registry == if ok then old(registry)[old(flights)[who].config.name := EntryOf(old(flights)[who])]
                          else old(registry)
      ensures who !in flights && (who == Restarter ==> handler == if ok then Idle else Gone(false))
      ensures ok <==> plan.metricsSent && !ListsType(old(Now()).runtime.table, old(flights)[who].pid, Metrics)
    {
      Then(s0, before, Now(), SubmitMetrics(who, plan.metricsSent));
      ok, steps := SubmitOrCleanUp(who, Metrics, plan.metricsSent, Measured, s0,
                                   before + [SubmitMetrics(who, plan.metricsSent)]);
      if ok {
        ghost var s3 := Now();
        Enter(who);
        Then(s0, steps, s3, Insert(who));
        steps := steps + [Insert(who)];
      }
    }

    /** `start`, uninterrupted: what it returns and leaves for every outcome of the calls it makes. */
    method StartProcess(config: ProcessConfig, plan: Plan) returns (r: CommandResult, ghost steps: seq<Step>)
      requires Free(Now(), plan.fork)
      modifies this, runtime, runtime.tRegistry
      ensures Exec(old(Now()), steps) == Some(Now())
      ensures r.ProcessStarted? ==>
                && plan.fork.Forked? && r == ProcessStarted(config.name, plan.fork.pid)
                && registry == old(registry)[config.name :=
                                 Entry(config, plan.fork.pid, |old(past).births|, |old(past).births|)]
      ensures !r.ProcessStarted? ==> r == Error && registry == old(registry)
      ensures var t := old(Now()).runtime.table;
              Agree(t) && MetricsFollowProcess(t) ==>
                (r.ProcessStarted? <==>
                  && config.name !in old(registry) && plan.fork.Forked?
                  && plan.prepared && plan.monitorSent && plan.metricsSent
                  && !HasTask(t, plan.fork.pid, Process))
    {
      ghost var s0 := Now();
      var child := |past.births|;
      var forked := BeginStart(config, plan.fork);
      ExecOne(s0, Start(config, plan.fork));
      steps := [Start(config, plan.fork)];
      r := Error;
      if forked {
        ghost var s1 := Now();
        ghost var rest;
        var ok;
        ok, rest := Place(Client(child), plan);
        ExecConcat(s0, steps, s1, rest);
        steps := steps + rest;
        r := if ok then ProcessStarted(config.name, plan.fork.pid) else Error;
      }
    }

    /** The handler's work once `respawn` has agreed, uninterrupted; its loop survives iff the child is placed. */
    method RespawnProcess(plan: Plan) returns (ok: bool, ghost steps: seq<Step>)
      requires handler.Respawning? && Free(Now(), plan.fork)
      modifies this, runtime, runtime.tRegistry
      ensures Exec(old(Now()), steps) == Some(Now())
      ensures ok ==>
                && plan.fork.Forked? && plan.prepared && plan.monitorSent && plan.metricsSent
                && registry == old(registry)[old(handler).config.name :=
                     Entry(old(handler).config, plan.fork.pid, |old(past).births|, old(handler).root)]
      ensures !ok ==> registry == old(registry)
      ensures handler == if ok then Idle else Gone(false)
      ensures var t := old(Now()).runtime.table;
              Agree(t) && MetricsFollowProcess(t) ==>
                (ok <==> && plan.fork.Forked? && plan.prepared && plan.monitorSent && plan.metricsSent
                         && !HasTask(t, plan.fork.pid, Process))
    {
      ghost var s0 := Now();
      var forked := BeginRespawn(plan.fork);
      ExecOne(s0, Refork(plan.fork));
      steps := [Refork(plan.fork)];
      ok := false;
      if forked {
        ghost var s1 := Now();
        ghost var rest;
        ok, rest := Place(Restarter, plan);
        ExecConcat(s0, steps, s1, rest);
        steps := steps + rest;
      }
    }

    /**
     `stop`, uninterrupted: remove the entry, abort its tasks, then kill its process. It
     reports an error for an unknown name, and also if the process was reaped before.
     */
    method StopProcess(name: string) returns (r: CommandResult, ghost steps: seq<Step>)
      modifies this, runtime, runtime.tRegistry
      ensures Exec(old(Now()), steps) == Some(Now())
      ensures registry == old(registry) - {name} && os == old(os)
      ensures r.ProcessStopped? <==> name in old(registry) && old(registry)[name].pid in os
      ensures r == ProcessStopped(name) || r == Error
      ensures steps == if name !in old(registry) then [Stop(name)]
                       else [Stop(name)] + [Finish(old(registry)[name].child)]
    {
      ghost var s0 := Now();
      ExecOne(s0, Stop(name));
      steps := [Stop(name)];
      if name !in registry {
        return Error, steps;
      }
      var entry := registry[name];
      RemoveEntry(name);
      ghost var s1 := Now();
      var hit := FinishKill(entry.child);
      Then(s0, steps, s1, Finish(entry.child));
      steps := steps + [Finish(entry.child)];
      r := if hit then ProcessStopped(name) else Error;
    }

    method RemoveEntry(name: string)
      modifies this
      ensures Now() == DoStop(old(Now()), name)
    {
      if name in registry {
        var entry := registry[name];
        registry := registry - {name};
        condemned := condemned[entry.child := entry.pid];
      }
    }

    /** The handler takes one request; removing a missing name is where its `unwrap` panics. */
    method TakeRequest() returns (again: bool)
      requires Enabled(Now(), Receive)
      modifies this, runtime, runtime.tRegistry
      ensures Now() == Next(old(Now()), Receive)
      ensures again <==> handler.Respawning?
    {
      var name := restarts[0];
      restarts := restarts[1..];
      if name !in registry {
        handler, restarts := Gone(true), [];
        return false;
      }
      var entry := registry[name];
      registry := registry - {name};
      var details := new CurrentTask(entry);
      runtime.KillTasksByPid(details.pid);
      again := details.RespawnInPlace();
      handler := if again then Respawning(details.config, entry.root) else Discarding(name);
    }

    /** The second removal, after the handler has decided not to respawn. */
    method DropRefused(name: string)
      requires handler == Discarding(name)
      modifies this
      ensures Now() == Next(old(Now()), Discard)
    {
      registry := registry - {name};
      handler := Idle;
    }

    /** A coordinator receives a task; for a process task it spawns the monitor. */
    method ReceiveTask(ty: TaskType)
      requires Enabled(Now(), Recv(ty))
      modifies this, runtime
      ensures Now() == Next(old(Now()), Recv(ty))
    {
      var m := runtime.ReceiveTask(ty);
      if ty == Process {
        monitors := monitors[m.id := Monitor(m.pid, m.name, m.child)];
      }
    }

    method AttachHandles(ty: TaskType)
      requires Enabled(Now(), Attach(ty))
      modifies this, runtime, runtime.tRegistry
      ensures Now() == Next(old(Now()), Attach(ty))
    {
      runtime.AttachHandles(ty);
    }

    method MonitorReaps(id: TaskId)
      requires Enabled(Now(), Reap(id))
      modifies this
      ensures Now() == Next(old(Now()), Reap(id))
    {
      var m := monitors[id];
      os := os - {m.pid};
      monitors := monitors - {id};
      sending := sending[id := m];
    }

    /** The monitor sends its request; without a receiver the send panics in the monitor alone. */
    method MonitorSends(id: TaskId)
      requires Enabled(Now(), Send(id))
      modifies this
      ensures Now() == Next(old(Now()), Send(id))
    {
      var m := sending[id];
      sending := sending - {id};
      if !handler.Gone? {
        restarts := restarts + [m.name];
      }
    }

    method MonitorEndsInError(id: TaskId, reason: string)
      requires Enabled(Now(), MonitorFails(id, reason))
      modifies this, runtime.tRegistry
      ensures Now() == Next(old(Now()), MonitorFails(id, reason))
      ensures monitors == old(monitors) - {id} && restarts == old(restarts)
    {
      monitors := monitors - {id};
      runtime.MarkFailed(id, reason);
    }

    /**
     `stop_all`: abort every task, then SIGKILL every entry. No entry's child is left
     unsignalled, and the failures reported are those of the entries already reaped.
     */
    method StopAll() returns (failures: set<string>)
      modifies this, runtime, runtime.tRegistry
      ensures registry == old(registry) && os == old(os)
      ensures forall i :: i in runtime.tRegistry.tasks ==> runtime.tRegistry.tasks[i].handles == []
      ensures EveryHandle(old(runtime.tRegistry.Contents())) <= runtime.aborted
      ensures past.signalled == old(past.signalled)
                                + set n | n in registry && registry[n].pid in os :: os[registry[n].pid].number
      ensures failures == set n | n in registry && registry[n].pid !in os
    {
      runtime.KillRuntime();
      var rest := registry.Keys;
      failures := {};
      while rest != {}
        invariant rest <= registry.Keys && registry == old(registry) && os == old(os)
        invariant forall i :: i in runtime.tRegistry.tasks ==> runtime.tRegistry.tasks[i].handles == []
        invariant EveryHandle(old(runtime.tRegistry.Contents())) <= runtime.aborted
        invariant past.signalled
                  == old(past.signalled)
                     + set n | n in registry && n !in rest && registry[n].pid in os :: os[registry[n].pid].number
        invariant failures == set n | n in registry && n !in rest && registry[n].pid !in os
        decreases rest
      {
        var name :| name in rest;
        var hit := Sigkill(registry[name].pid);
        if !hit {
          failures := failures + {name};
        }
        rest := rest - {name};
      }
    }
  }
}
