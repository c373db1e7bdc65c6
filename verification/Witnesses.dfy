/**
 Concrete runs of the supervisor. First the building blocks: an uninterrupted
 `start` succeeds, and an exit is reported to the handler. Then, for each condition
 of the discipline, a run that ignores it and loses the promise.
 */
module Witnesses {
  import opened Wrappers
  import opened Tasks
  import opened Config
  import opened Machine
  import opened Accounting
  import opened Discipline
  import opened Promises

  /** A pid the registry has never seen. */
  predicate Unseen(s: State, pid: Pid) {
    pid !in s.os && pid !in s.runtime.table.index
  }

  lemma LoggingIsNoDuplicate(t: Table, pid: Pid, ty: TaskType)
    requires pid in t.index && |t.index[pid]| == 1 && t.index[pid][0] in t.tasks
    requires t.tasks[t.index[pid][0]].ty != ty
    ensures !ListsType(t, pid, ty)
  {
    var ids := t.index[pid];
    assert ids[1..] == [];
    assert Lookup(t, ids) == [t.tasks[ids[0]]] + Lookup(t, []);
  }

  lemma TwoAreNoDuplicate(t: Table, pid: Pid, ty: TaskType)
    requires pid in t.index && |t.index[pid]| == 2 && t.index[pid][0] in t.tasks && t.index[pid][1] in t.tasks
    requires t.tasks[t.index[pid][0]].ty != ty && t.tasks[t.index[pid][1]].ty != ty
    ensures !ListsType(t, pid, ty)
  {
    var ids := t.index[pid];
    assert ids[1..] == [ids[1]];
    assert Lookup(t, ids[1..]) == [t.tasks[ids[1]]] + Lookup(t, []);
    assert Lookup(t, ids) == [t.tasks[ids[0]]] + Lookup(t, ids[1..]);
  }

  ghost function LogPosted(s: State, config: ProcessConfig, pid: Pid): Runtime {
    Post(s.runtime, Logging, Flight(config, pid, Newborn(s), Newborn(s), Spawned), true)
  }

  ghost function MonitorPosted(s: State, config: ProcessConfig, pid: Pid): Runtime {
    Post(LogPosted(s, config, pid), Process, Flight(config, pid, Newborn(s), Newborn(s), Logged), true)
  }

  ghost function MetricsPosted(s: State, config: ProcessConfig, pid: Pid): Runtime {
    Post(MonitorPosted(s, config, pid), Metrics, Flight(config, pid, Newborn(s), Newborn(s), Monitored), true)
  }

  /** The logger's and the monitor's submission, for a child under a pid never seen before. */
  lemma LogAndMonitor(s: State, who: Who) returns (steps: seq<Step>, t: State)
    requires At(s, who, Spawned) && s.flights[who].pid !in s.runtime.table.index
    ensures Exec(s, steps) == Some(t) && AllUnconditional(steps)
    ensures var f := s.flights[who];
            t == s.(flights := s.flights[who := f.(stage := Monitored)],
                    runtime := Post(Post(s.runtime, Logging, f, true), Process, f.(stage := Logged), true))
  {
    var f := s.flights[who];
    var log, monitor := SubmitLog(who, true), SubmitMonitor(who, true);
    ExecOne(s, log);
    var s1 := Next(s, log);
    assert s1 == s.(flights := s.flights[who := f.(stage := Logged)], runtime := Post(s.runtime, Logging, f, true));
    LoggingIsNoDuplicate(s1.runtime.table, f.pid, Process);
    Then(s, [log], s1, monitor);
    t := Next(s1, monitor);
    assert t.flights == s.flights[who := f.(stage := Monitored)];
    steps := [log] + [monitor];
  }

  predicate StartsThenUnconditional(steps: seq<Step>, config: ProcessConfig, pid: Pid) {
    steps != [] && steps[0] == Start(config, Forked(pid)) && AllUnconditional(steps[1..])
  }

  /** `start`, run without interruption as far as the submission of its monitor task. */
  lemma StartUpToMonitor(s: State, config: ProcessConfig, pid: Pid) returns (steps: seq<Step>, t: State)
    requires config.name !in s.entries && Unseen(s, pid)
    ensures Exec(s, steps) == Some(t) && StartsThenUnconditional(steps, config, pid)
    ensures t == Give(s, pid, config, Newborn(s)).(
                   flights := s.flights[Client(Newborn(s)) := Flight(config, pid, Newborn(s), Newborn(s), Monitored)],
                   runtime := MonitorPosted(s, config, pid))
  {
    var who, fork := Client(Newborn(s)), Start(config, Forked(pid));
    ExecOne(s, fork);
    var s1 := Next(s, fork);
    var rest;
    rest, t := LogAndMonitor(s1, who);
    ExecConcat(s, [fork], s1, rest);
    steps := [fork] + rest;
    assert t.flights == s.flights[who := Flight(config, pid, Newborn(s), Newborn(s), Monitored)];
  }

  /** What remains of `start` and of the handler's respawning: metrics and insertion. */
  lemma FinishPlacing(s: State, who: Who) returns (steps: seq<Step>, t: State)
    requires At(s, who, Monitored) && !ListsType(s.runtime.table, s.flights[who].pid, Metrics)
    ensures Exec(s, steps) == Some(t) && AllUnconditional(steps)
    ensures var f := s.flights[who];
            var e := Entry(f.config, f.pid, f.child, f.root);
            t == s.(flights := s.flights - {who},
                    entries := s.entries[f.config.name := e],
                    past := s.past.(inserted := s.past.inserted + [e]),
                    handler := if who == Restarter then Idle else s.handler,
                    runtime := Post(s.runtime, Metrics, f, true))
  {
    var metrics, insert := SubmitMetrics(who, true), Insert(who);
    ExecOne(s, metrics);
    var s1 := Next(s, metrics);
    Then(s, [metrics], s1, insert);
    t := Next(s1, insert);
    assert t.flights == s.flights - {who};
    steps := [metrics] + [insert];
  }

  /** An uninterrupted `start` of a new name under a pid never seen before ends with the entry in the registry. */
  lemma UninterruptedStartSucceeds(s: State, config: ProcessConfig, pid: Pid) returns (steps: seq<Step>, t: State)
    requires config.name !in s.entries && Unseen(s, pid) && Client(Newborn(s)) !in s.flights
    ensures Exec(s, steps) == Some(t) && StartsThenUnconditional(steps, config, pid)
    ensures var e := Entry(config, pid, Newborn(s), Newborn(s));
            t == Give(s, pid, config, Newborn(s)).(
                   entries := s.entries[config.name := e],
                   past := s.past.(births := s.past.births + [Birth(pid, config, Newborn(s))],
                                   inserted := s.past.inserted + [e]),
                   runtime := MetricsPosted(s, config, pid))
  {
    var first, m := StartUpToMonitor(s, config, pid);
    TwoAreNoDuplicate(m.runtime.table, pid, Metrics);
    var rest;
    rest, t := FinishPlacing(m, Client(Newborn(s)));
    ExecConcat(s, first, m, rest);
    steps := first + rest;
    assert m.flights - {Client(Newborn(s))} == s.flights;
  }

  /** The coordinator receives the next process task and, if asked to, registers its monitor's handle. */
  lemma IsPickedUp(s: State, attach: bool) returns (steps: seq<Step>, t: State)
    requires s.runtime.lifecycle.queue != [] && s.runtime.lifecycle.held == None
    ensures Exec(s, steps) == Some(t) && AllUnconditional(steps)
    ensures var m := s.runtime.lifecycle.queue[0];
            t == s.(monitors := s.monitors[m.id := Monitor(m.pid, m.name, m.child)],
                    runtime := if attach then Attached(Received(s.runtime, Process), Process)
                               else Received(s.runtime, Process))
  {
    ExecOne(s, Recv(Process));
    steps, t := [Recv(Process)], Next(s, Recv(Process));
    if attach {
      Then(s, steps, t, Attach(Process));
      steps, t := steps + [Attach(Process)], Next(t, Attach(Process));
    }
  }

  /** The process exits and its monitor reaps it. */
  lemma IsReaped(s: State, id: TaskId) returns (steps: seq<Step>, t: State)
    requires Armed(s, id) && s.monitors[id].pid in s.os
    ensures Exec(s, steps) == Some(t) && (s.condemned == map[] ==> DisciplinedFrom(s, steps))
    ensures var m := s.monitors[id];
            t == s.(os := s.os - {m.pid}, monitors := s.monitors - {id}, sending := s.sending[id := m])
  {
    var pid := s.monitors[id].pid;
    ExecOne(s, Exit(pid));
    var mid := Next(s, Exit(pid));
    Then(s, [Exit(pid)], mid, Reap(id));
    steps, t := [Exit(pid)] + [Reap(id)], Next(mid, Reap(id));
    assert t.os == s.os - {pid};
    if s.condemned == map[] {
      UnconditionalIsDisciplined(s, [Exit(pid)]);
      DisciplinedThen(s, [Exit(pid)], mid, Reap(id));
    }
  }

  /** The process exits and its monitor reaps it and sends its request. */
  lemma IsReported(s: State, id: TaskId) returns (steps: seq<Step>, t: State)
    requires Armed(s, id) && s.monitors[id].pid in s.os && s.sending == map[] && !s.handler.Gone?
    ensures Exec(s, steps) == Some(t) && (s.condemned == map[] ==> DisciplinedFrom(s, steps))
    ensures t == s.(os := s.os - {s.monitors[id].pid}, monitors := s.monitors - {id},
                    restarts := s.restarts + [s.monitors[id].name])
  {
    var first, m := IsReaped(s, id);
    Then(s, first, m, Send(id));
    steps, t := first + [Send(id)], Next(m, Send(id));
    assert t.sending == map[];
    if s.condemned == map[] {
      DisciplinedThen(s, first, m, Send(id));
    }
  }

  /** A process exits and its monitor, next in the channel, is received, reaps it and asks for a restart. */
  lemma ExitIsReported(s: State, attach: bool) returns (steps: seq<Step>, t: State)
    requires s.runtime.lifecycle.queue != [] && s.runtime.lifecycle.held == None
    requires s.sending == map[] && !s.handler.Gone?
    requires var m := s.runtime.lifecycle.queue[0];
             m.pid in s.os && Handle(m.id, 0) !in s.runtime.aborted
    ensures Exec(s, steps) == Some(t) && (s.condemned == map[] ==> DisciplinedFrom(s, steps))
    ensures var m := s.runtime.lifecycle.queue[0];
            t == s.(restarts := s.restarts + [m.name], os := s.os - {m.pid}, monitors := s.monitors - {m.id},
                    runtime := if attach then Attached(Received(s.runtime, Process), Process)
                               else Received(s.runtime, Process))
  {
    var id := s.runtime.lifecycle.queue[0].id;
    var first, m := IsPickedUp(s, attach);
    var rest;
    rest, t := IsReported(m, id);
    ExecConcat(s, first, m, rest);
    steps := first + rest;
    assert t.monitors == s.monitors - {id};
    if s.condemned == map[] {
      UnconditionalIsDisciplined(s, first);
      DisciplinedConcat(s, first, m, rest);
    }
  }

  /** The process exits while its `start` has not entered it yet: the handler panics on its request. */
  lemma EarlyExitPanicsTheHandler(config: ProcessConfig, pid: Pid) returns (steps: seq<Step>, t: State)
    ensures Reaches(steps, t) && t.handler == Gone(true)
    ensures Starting(t.flights, config.name) && config.name !in t.entries
  {
    var a, s1 := StartUpToMonitor(INIT, config, pid);
    var m := Message(2, pid, config.name, 0);
    assert s1.runtime.lifecycle.queue == [] + [m] == [m];
    var b, s2 := ExitIsReported(s1, false);
    ExecConcat(INIT, a, s1, b);
    assert s2.restarts == [config.name];
    Then(INIT, a + b, s2, Receive);
    steps := a + b + [Receive];
    t := Next(s2, Receive);
    assert Client(0) in t.flights;
  }

  /** `stop`, uninterrupted, of an entry none of whose tasks has a handle yet: nothing is aborted. */
  lemma StopAbortsNothing(s: State, name: string) returns (steps: seq<Step>, t: State)
    requires name in s.entries && s.entries[name].child !in s.condemned
    requires forall i :: i in s.runtime.table.tasks ==> s.runtime.table.tasks[i].handles == []
    ensures Exec(s, steps) == Some(t)
    ensures var pid := s.entries[name].pid;
            t == Signal(s, pid).(entries := s.entries - {name}, runtime := KillTasks(s.runtime, pid))
    ensures t.runtime.aborted == s.runtime.aborted
  {
    steps, t := StopIsTwoSteps(s, name);
    NoHandlesYet(s.runtime.table, s.entries[name].pid);
  }

  lemma StopIsTwoSteps(s: State, name: string) returns (steps: seq<Step>, t: State)
    requires name in s.entries && s.entries[name].child !in s.condemned
    ensures Exec(s, steps) == Some(t)
    ensures var pid := s.entries[name].pid;
            t == Signal(s, pid).(entries := s.entries - {name}, runtime := KillTasks(s.runtime, pid))
  {
    var child := s.entries[name].child;
    ExecOne(s, Stop(name));
    var m := Next(s, Stop(name));
    Then(s, [Stop(name)], m, Finish(child));
    steps, t := [Stop(name)] + [Finish(child)], Next(m, Finish(child));
    StopThenFinish(s, name);
  }

  lemma StopThenFinish(s: State, name: string)
    requires name in s.entries && s.entries[name].child !in s.condemned
    ensures var e := s.entries[name];
            DoFinish(DoStop(s, name), e.child)
            == Signal(s, e.pid).(entries := s.entries - {name}, runtime := KillTasks(s.runtime, e.pid))
  {
    var e := s.entries[name];
    assert s.condemned[e.child := e.pid] - {e.child} == s.condemned;
  }

  /** A process is started under a first pid, and its monitor's message waits. */
  lemma StartedOnce(config: ProcessConfig, pid: Pid) returns (steps: seq<Step>, t: State)
    ensures Reaches(steps, t)
    ensures t.entries == map[config.name := Entry(config, pid, 0, 0)] && t.os == map[pid := Child(0, false)]
    ensures t.flights == map[] && t.restarts == [] && t.sending == map[] && t.condemned == map[] && t.monitors == map[]
    ensures t.handler == Idle && t.runtime == MetricsPosted(INIT, config, pid)
    ensures t.runtime.lifecycle.queue == [Message(2, pid, config.name, 0)] && t.runtime.lifecycle.held == None
    ensures t.past == Past([Birth(pid, config, 0)], [Entry(config, pid, 0, 0)], {}, {})
  {
    steps, t := UninterruptedStartSucceeds(INIT, config, pid);
    assert t.runtime.lifecycle.queue == [] + [Message(2, pid, config.name, 0)];
    assert t.past.births == [Birth(pid, config, 0)] && t.past.inserted == [Entry(config, pid, 0, 0)];
  }

  /** With a request queued that no entry answers, and no `start` in progress, the handler panics. */
  lemma StaleRequestPanics(steps: seq<Step>, s: State, name: string) returns (more: seq<Step>, t: State)
    requires Reaches(steps, s) && s.restarts == [name] && s.handler == Idle && s.entries == map[] && s.flights == map[]
    ensures Reaches(more, t) && t.handler == Gone(true) && t.flights == map[] && t.entries == map[]
  {
    Then(INIT, steps, s, Receive);
    more, t := steps + [Receive], Next(s, Receive);
  }

  /** `stop` before the monitor's message is received cannot abort it: its later request finds no entry. */
  lemma StopBeforePickupPanicsTheHandler(config: ProcessConfig, pid: Pid) returns (steps: seq<Step>, t: State)
    ensures Reaches(steps, t) && t.handler == Gone(true) && t.flights == map[] && t.entries == map[]
  {
    var a, s1 := StartedOnce(config, pid);
    var b, s2 := StopAbortsNothing(s1, config.name);
    ExecConcat(INIT, a, s1, b);
    var c, s3 := ExitIsReported(s2, true);
    ExecConcat(INIT, a + b, s2, c);
    steps, t := StaleRequestPanics(a + b + c, s3, config.name);
  }

  /** `stop` after the monitor was received but before its handle is registered cannot abort it either. */
  lemma StopBeforeAttachPanicsTheHandler(config: ProcessConfig, pid: Pid) returns (steps: seq<Step>, t: State)
    ensures Reaches(steps, t) && t.handler == Gone(true) && t.flights == map[] && t.entries == map[]
  {
    var a, s1 := StartedOnce(config, pid);
    var b, s2 := IsPickedUp(s1, false);
    ExecConcat(INIT, a, s1, b);
    var c, s3 := StopAbortsNothing(s2, config.name);
    ExecConcat(INIT, a + b, s2, c);
    var d, s4 := IsReported(s3, 2);
    ExecConcat(INIT, a + b + c, s3, d);
    steps, t := StaleRequestPanics(a + b + c + d, s4, config.name);
  }

  /** The process exits, and is reaped and reported, between the removal and the kill of its `stop`. */
  lemma ExitInsideStopPanicsTheHandler(config: ProcessConfig, pid: Pid) returns (steps: seq<Step>, t: State)
    ensures Reaches(steps, t) && t.handler == Gone(true) && t.flights == map[] && t.entries == map[]
  {
    var a, s1 := StartedOnce(config, pid);
    var b, s2 := IsPickedUp(s1, true);
    ExecConcat(INIT, a, s1, b);
    AttachAbortsNothing(s1.runtime);
    Then(INIT, a + b, s2, Stop(config.name));
    var s3 := Next(s2, Stop(config.name));
    var c, s4 := IsReported(s3, 2);
    ExecConcat(INIT, a + b + [Stop(config.name)], s3, c);
    steps, t := StaleRequestPanics(a + b + [Stop(config.name)] + c, s4, config.name);
  }

  lemma AttachAbortsNothing(r: Runtime)
    requires r.lifecycle.queue != [] && r.lifecycle.held == None
    ensures Attached(Received(r, Process), Process).aborted == r.aborted
  {
  }

  /** The whole `stop` falls between a monitor's reaping and its sending: aborting it comes too late. */
  lemma StopInsideReportPanicsTheHandler(config: ProcessConfig, pid: Pid) returns (steps: seq<Step>, t: State)
    ensures Reaches(steps, t) && t.handler == Gone(true) && t.flights == map[] && t.entries == map[]
  {
    var a, s1 := StartedOnce(config, pid);
    var b, s2 := IsPickedUp(s1, true);
    ExecConcat(INIT, a, s1, b);
    AttachAbortsNothing(s1.runtime);
    var c, s3 := IsReaped(s2, 2);
    ExecConcat(INIT, a + b, s2, c);
    var d, s4 := StopIsTwoSteps(s3, config.name);
    ExecConcat(INIT, a + b + c, s3, d);
    Then(INIT, a + b + c + d, s4, Send(2));
    steps, t := StaleRequestPanics(a + b + c + d + [Send(2)], Next(s4, Send(2)), config.name);
  }

  /** A `start` whose metrics submission is lost after its process has exited leaves a request without an entry. */
  lemma LateGiveUpPanicsTheHandler(config: ProcessConfig, pid: Pid) returns (steps: seq<Step>, t: State)
    ensures Reaches(steps, t) && t.handler == Gone(true) && t.flights == map[] && t.entries == map[]
  {
    var a, s1 := StartUpToMonitor(INIT, config, pid);
    assert s1.runtime.lifecycle.queue == [] + [Message(2, pid, config.name, 0)];
    var b, s2 := ExitIsReported(s1, false);
    ExecConcat(INIT, a, s1, b);
    var give := SubmitMetrics(Client(0), false);
    Then(INIT, a + b, s2, give);
    steps, t := StaleRequestPanics(a + b + [give], Next(s2, give), config.name);
  }

  lemma NoHandlesYet(t: Table, pid: Pid)
    requires forall i :: i in t.tasks ==> t.tasks[i].handles == []
    ensures KillHandles(t, pid) == {}
  {
  }

  /** A process is started and exits, and its exit is reported. */
  lemma ReportedOnce(config: ProcessConfig, pid: Pid) returns (steps: seq<Step>, t: State)
    ensures Reaches(steps, t)
    ensures t.entries == map[config.name := Entry(config, pid, 0, 0)] && t.os == map[]
    ensures t.flights == map[] && t.restarts == [config.name] && t.condemned == map[] && t.handler == Idle
    ensures t.past == Past([Birth(pid, config, 0)], [Entry(config, pid, 0, 0)], {}, {})
    ensures forall p :: p in t.runtime.table.index ==> p == pid
  {
    var a, s1 := StartedOnce(config, pid);
    var b;
    b, t := ExitIsReported(s1, true);
    ExecConcat(INIT, a, s1, b);
    OnlyOnePid(INIT, config, pid, t.runtime);
    steps := a + b;
    assert t.os == map[];
  }

  /** ... and then it is stopped before the handler takes the request. */
  lemma StoppedWhileRequested(config: ProcessConfig, pid: Pid) returns (steps: seq<Step>, t: State)
    ensures Reaches(steps, t)
    ensures t.entries == map[] && t.os == map[] && t.flights == map[] && t.condemned == map[]
    ensures t.restarts == [config.name] && t.handler == Idle
    ensures t.past == Past([Birth(pid, config, 0)], [Entry(config, pid, 0, 0)], {}, {})
    ensures forall p :: p in t.runtime.table.index ==> p == pid
  {
    var a, s := ReportedOnce(config, pid);
    var b;
    b, t := StopIsTwoSteps(s, config.name);
    ExecConcat(INIT, a, s, b);
    steps := a + b;
    assert t.entries == map[];
  }

  /**
   `stop` while a request is queued, then `start` of the same name: the handler takes
   the stale request for the new incarnation and drops it from the registry alive.
   */
  lemma StaleRequestDropsALiveChild(config: ProcessConfig, pid: Pid, other: Pid) returns (steps: seq<Step>, t: State)
    requires pid != other
    ensures Reaches(steps, t) && t.handler != Gone(true)
    ensures other in t.os && t.os[other] == Child(1, false) && !Managed(t, 1)
  {
    var a, s1 := StoppedWhileRequested(config, pid);
    var b, s2 := UninterruptedStartSucceeds(s1, config, other);
    ExecConcat(INIT, a, s1, b);
    steps, t := OnlyEntryIsTaken(a + b, s2, config.name);
  }

  /** The handler takes the only entry there is, and its child has no other record. */
  lemma OnlyEntryIsTaken(before: seq<Step>, s: State, name: string) returns (steps: seq<Step>, t: State)
    requires Reaches(before, s) && s.restarts == [name] && s.handler == Idle && s.entries.Keys == {name}
    requires s.flights == map[] && s.condemned == map[] && s.past.signalled == {} && s.past.leaked == {}
    ensures Reaches(steps, t) && t.handler != Gone(true) && t.os == s.os && !Managed(t, s.entries[name].child)
  {
    Then(INIT, before, s, Receive);
    steps := before + [Receive];
    t := Next(s, Receive);
    assert t.flights == map[] && t.entries == map[] && t.condemned == map[];
  }

  /** The handler has refused to restart the process, and has its second removal still to do. */
  lemma RefusedOnce(config: ProcessConfig, pid: Pid) returns (steps: seq<Step>, t: State)
    requires config.restart == NoRestart
    ensures Reaches(steps, t)
    ensures t.entries == map[] && t.os == map[] && t.flights == map[] && t.condemned == map[]
    ensures t.handler == Discarding(config.name)
    ensures t.past == Past([Birth(pid, config, 0)], [Entry(config, pid, 0, 0)], {}, {})
    ensures forall p :: p in t.runtime.table.index ==> p == pid
  {
    var a, s := ReportedOnce(config, pid);
    Then(INIT, a, s, Receive);
    steps, t := a + [Receive], Next(s, Receive);
    assert t.entries == map[];
  }

  /**
   `start` of a name whose request the handler has just refused to serve: the
   handler's second removal, meant for the old entry, drops the new, live child.
   */
  lemma SecondRemovalDropsALiveChild(config: ProcessConfig, pid: Pid, other: Pid) returns (steps: seq<Step>, t: State)
    requires pid != other && config.restart == NoRestart
    ensures Reaches(steps, t) && t.handler == Idle
    ensures other in t.os && t.os[other] == Child(1, false) && !Managed(t, 1)
  {
    var a, s1 := RefusedOnce(config, pid);
    var b, s2 := UninterruptedStartSucceeds(s1, config, other);
    ExecConcat(INIT, a, s1, b);
    Then(INIT, a + b, s2, Discard);
    steps := a + b + [Discard];
    t := Next(s2, Discard);
    assert t.flights == map[] && t.entries == map[] && t.condemned == map[];
  }

  lemma OnlyOnePid(s: State, config: ProcessConfig, pid: Pid, r: Runtime)
    requires s == INIT
    requires r == Attached(Received(MetricsPosted(s, config, pid), Process), Process)
    ensures forall p :: p in r.table.index ==> p == pid
  {
    var q := Received(MetricsPosted(s, config, pid), Process);
    AttachLeavesIndex(q.table, q.lifecycle.held.value, SpawnedHandles(Process, q.lifecycle.held.value));
  }

  lemma {:induction false} AttachLeavesIndex(t: Table, id: TaskId, hs: seq<Handle>)
    ensures WithHandles(t, id, hs).index == t.index
    decreases |hs|
  {
    if hs != [] {
      AttachLeavesIndex(WithHandle(t, id, hs[0]), id, hs[1..]);
    }
  }

  /** A second `start` of a name overtakes the first, which has only submitted its monitor so far. */
  lemma SecondStartOvertakes(config: ProcessConfig, pid: Pid, other: Pid) returns (steps: seq<Step>, t: State)
    requires pid != other
    ensures Reaches(steps, t) && t.handler == Idle
    ensures t.past.signalled == {} && t.past.leaked == {} && t.condemned == map[]
    ensures t.flights == map[Client(0) := Flight(config, pid, 0, 0, Monitored)]
    ensures t.entries == map[config.name := Entry(config, other, 1, 1)]
    ensures other in t.os && t.os[other] == Child(1, false)
    ensures !ListsType(t.runtime.table, pid, Metrics)
  {
    var a, s1 := StartUpToMonitor(INIT, config, pid);
    var b;
    b, t := UninterruptedStartSucceeds(s1, config, other);
    ExecConcat(INIT, a, s1, b);
    steps := a + b;
    OvertakenIsNoDuplicate(config, pid, other, s1.runtime, s1, t.runtime);
  }

  lemma OvertakenIsNoDuplicate(config: ProcessConfig, pid: Pid, other: Pid, r: Runtime, s: State, q: Runtime)
    requires pid != other && r == MonitorPosted(INIT, config, pid) == s.runtime
    requires q == MetricsPosted(s, config, other)
    ensures !ListsType(q.table, pid, Metrics)
  {
    assert q.table.index[pid] == r.table.index[pid] == [1, 2];
    TwoAreNoDuplicate(q.table, pid, Metrics);
  }

  /** Two `start`s of one name both pass the name check: the later insertion overwrites a live entry. */
  lemma SameNameTwiceOrphansAChild(config: ProcessConfig, pid: Pid, other: Pid) returns (steps: seq<Step>, t: State)
    requires pid != other
    ensures Reaches(steps, t) && t.handler == Idle
    ensures other in t.os && t.os[other] == Child(1, false) && !Managed(t, 1)
    ensures t.entries == map[config.name := Entry(config, pid, 0, 0)]
  {
    var a, s1 := SecondStartOvertakes(config, pid, other);
    var b;
    b, t := FinishPlacing(s1, Client(0));
    ExecConcat(INIT, a, s1, b);
    steps := a + b;
    assert t.flights == map[];
  }

  /** A fork whose pipes cannot be set up leaves a running child that nothing in the supervisor knows. */
  lemma FailedPipesOrphanAChild(config: ProcessConfig, pid: Pid) returns (steps: seq<Step>, t: State)
    ensures Reaches(steps, t) && Orphaned(t, 0) && pid in t.os && !t.os[pid].exited
  {
    steps := [Start(config, StreamsFailed(pid))];
    ExecOne(INIT, Start(config, StreamsFailed(pid)));
    t := Next(INIT, Start(config, StreamsFailed(pid)));
  }
}
