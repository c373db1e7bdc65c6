/**
 Pid admission: even though the kernel may reuse pids, a pid enters the process
 registry at most once per run, because tasks are never removed and the duplicate
 check of the process submission ignores their status.
 */
module Admission {
  import opened Tasks
  import opened Config
  import opened Machine
  import opened Delivery

  ghost predicate OnePerPid(t: Table) {
    forall i, j | i in t.tasks && j in t.tasks && t.tasks[i].ty == t.tasks[j].ty != Logging ::
      t.tasks[i].pid == t.tasks[j].pid ==> i == j
  }

  ghost predicate MetricsFollowProcess(t: Table) {
    forall p :: HasTask(t, p, Metrics) ==> HasTask(t, p, Process)
  }

  predicate Watched(f: Flight) {
    f.stage == Monitored || f.stage == Measured
  }

  ghost predicate FlightTasks(t: Table, flights: map<Who, Flight>) {
    && (forall w :: w in flights && Watched(flights[w]) ==>
          && HasTask(t, flights[w].pid, Process)
          && (HasTask(t, flights[w].pid, Metrics) <==> flights[w].stage == Measured))
    && (forall w, v | w in flights && v in flights && Watched(flights[w]) && Watched(flights[v]) ::
          flights[w].pid == flights[v].pid ==> w == v)
  }

  ghost predicate AdmittedOnce(t: Table, flights: map<Who, Flight>, inserted: seq<Entry>) {
    && (forall i, j :: 0 <= i < j < |inserted| ==> inserted[i].pid != inserted[j].pid)
    && (forall e :: e in inserted ==> HasTask(t, e.pid, Process) && HasTask(t, e.pid, Metrics))
    && (forall e, w :: e in inserted && w in flights && Watched(flights[w]) ==> e.pid != flights[w].pid)
  }

  ghost predicate EntriesInserted(entries: map<string, Entry>, inserted: seq<Entry>) {
    forall n :: n in entries ==> entries[n] in inserted && entries[n].config.name == n
  }

  ghost predicate Admitted(s: State) {
    && OnePerPid(s.runtime.table)
    && MetricsFollowProcess(s.runtime.table)
    && FlightTasks(s.runtime.table, s.flights)
    && AdmittedOnce(s.runtime.table, s.flights, s.past.inserted)
    && EntriesInserted(s.entries, s.past.inserted)
  }

  // ----- what each change of the table means for the tasks of a pid -----

  /** Both tables have tasks of the same types for the same pids, logging tasks aside. */
  ghost predicate SameWatch(t: Table, u: Table) {
    && (forall p :: HasTask(t, p, Process) <==> HasTask(u, p, Process))
    && (forall p :: HasTask(t, p, Metrics) <==> HasTask(u, p, Metrics))
    && (OnePerPid(t) ==> OnePerPid(u))
  }

  lemma ShapeHas(t: Table, u: Table, p: Pid, ty: TaskType)
    requires SameShape(t, u)
    ensures HasTask(t, p, ty) <==> HasTask(u, p, ty)
  {
    if HasTask(t, p, ty) {
      var i :| i in t.tasks && t.tasks[i].pid == p && t.tasks[i].ty == ty;
      assert SameTask(t.tasks[i], u.tasks[i]);
    }
    if HasTask(u, p, ty) {
      var i :| i in u.tasks && u.tasks[i].pid == p && u.tasks[i].ty == ty;
      assert SameTask(t.tasks[i], u.tasks[i]);
    }
  }

  lemma ShapeIsSameWatch(t: Table, u: Table)
    requires SameShape(t, u)
    ensures SameWatch(t, u)
  {
    forall p ensures HasTask(t, p, Process) <==> HasTask(u, p, Process) { ShapeHas(t, u, p, Process); }
    forall p ensures HasTask(t, p, Metrics) <==> HasTask(u, p, Metrics) { ShapeHas(t, u, p, Metrics); }
    forall i, j | OnePerPid(t) && i in u.tasks && j in u.tasks && u.tasks[i].pid == u.tasks[j].pid
                  && u.tasks[i].ty == u.tasks[j].ty && u.tasks[i].ty != Logging ensures i == j {
      assert SameTask(t.tasks[i], u.tasks[i]) && SameTask(t.tasks[j], u.tasks[j]);
    }
  }

  lemma AdmitHas(t: Table, pid: Pid, ty: TaskType, p: Pid, y: TaskType)
    requires Agree(t)
    ensures HasTask(Admit(t, pid, ty), p, y) <==> HasTask(t, p, y) || (p == pid && y == ty)
  {
    var u := Admit(t, pid, ty);
    assert u.tasks[t.next].pid == pid && u.tasks[t.next].ty == ty;
    if HasTask(t, p, y) {
      var i :| i in t.tasks && t.tasks[i].pid == p && t.tasks[i].ty == y;
      assert i in u.tasks && u.tasks[i] == t.tasks[i];
    }
  }

  lemma LoggingIsSameWatch(t: Table, pid: Pid)
    requires Agree(t)
    ensures SameWatch(t, Admit(t, pid, Logging))
  {
    var u := Admit(t, pid, Logging);
    forall p ensures HasTask(t, p, Process) <==> HasTask(u, p, Process) { AdmitHas(t, pid, Logging, p, Process); }
    forall p ensures HasTask(t, p, Metrics) <==> HasTask(u, p, Metrics) { AdmitHas(t, pid, Logging, p, Metrics); }
  }

  lemma AdmitKeepsOnePerPid(t: Table, pid: Pid, ty: TaskType)
    requires Agree(t) && OnePerPid(t) && !HasTask(t, pid, ty)
    ensures OnePerPid(Admit(t, pid, ty))
  {
  }

  predicate SameFrame(s: State, s': State) {
    s'.entries == s.entries && s'.past.inserted == s.past.inserted
  }

  ghost predicate NoNewWatch(s: State, s': State) {
    forall w :: w in s'.flights && Watched(s'.flights[w]) ==> w in s.flights && s.flights[w] == s'.flights[w]
  }

  // ----- preservation, change by change -----

  lemma SameWatchKeepsAdmitted(s: State, s': State)
    requires Admitted(s) && SameWatch(s.runtime.table, s'.runtime.table)
    requires s'.flights == s.flights && s'.past.inserted == s.past.inserted
    requires EntriesInserted(s'.entries, s.past.inserted)
    ensures Admitted(s')
  {
  }

  /** Dropping or relaunching a flight loses no obligation. */
  lemma FewerWatchedKeepsAdmitted(s: State, s': State)
    requires Admitted(s) && SameWatch(s.runtime.table, s'.runtime.table)
    requires SameFrame(s, s') && NoNewWatch(s, s')
    ensures Admitted(s')
  {
  }

  /** The process submission went through: the pid had no process task, hence no metrics task. */
  lemma MonitoredKeepsAdmitted(s: State, who: Who, q: Runtime)
    requires Admitted(s) && Agree(s.runtime.table) && who in s.flights
    requires var pid := s.flights[who].pid;
             !HasTask(s.runtime.table, pid, Process) && q.table == Admit(s.runtime.table, pid, Process)
    ensures Admitted(Advance(s, who, Monitored, q))
  {
    var t, u, pid := s.runtime.table, q.table, s.flights[who].pid;
    forall p, y ensures HasTask(u, p, y) <==> HasTask(t, p, y) || (p == pid && y == Process) {
      AdmitHas(t, pid, Process, p, y);
    }
    AdmitKeepsOnePerPid(t, pid, Process);
  }

  lemma MeasuredKeepsAdmitted(s: State, who: Who, q: Runtime)
    requires Admitted(s) && Agree(s.runtime.table) && At(s, who, Monitored)
    requires q.table == Admit(s.runtime.table, s.flights[who].pid, Metrics)
    ensures Admitted(Advance(s, who, Measured, q))
  {
    var t, u, pid := s.runtime.table, q.table, s.flights[who].pid;
    forall p, y ensures HasTask(u, p, y) <==> HasTask(t, p, y) || (p == pid && y == Metrics) {
      AdmitHas(t, pid, Metrics, p, y);
    }
    assert HasTask(t, pid, Process) && !HasTask(t, pid, Metrics);
    AdmitKeepsOnePerPid(t, pid, Metrics);
  }

  /** A submission that was registered but not sent is given up after all. */
  lemma LossKeepsAdmitted(s: State, who: Who, stage: Stage, q: Runtime)
    requires who in s.flights && Admitted(Advance(s, who, stage, q))
    ensures Admitted(GiveUp(s, who, q))
  {
    GiveUpIsFrame(Advance(s, who, stage, q), who);
    FewerWatchedKeepsAdmitted(Advance(s, who, stage, q), GiveUp(s, who, q));
  }

  lemma GiveUpKeepsAdmitted(s: State, who: Who)
    requires Admitted(s) && who in s.flights
    ensures Admitted(GiveUp(s, who, s.runtime))
  {
    GiveUpIsFrame(s, who);
    FewerWatchedKeepsAdmitted(s, GiveUp(s, who, s.runtime));
  }

  lemma GiveUpIsFrame(s: State, who: Who)
    requires who in s.flights
    ensures SameFrame(s, GiveUp(s, who, s.runtime)) && NoNewWatch(s, GiveUp(s, who, s.runtime))
  {
  }

  lemma SubmitKeepsAdmitted(s: State, who: Who, ty: TaskType, sent: bool)
    requires Admitted(s) && Delivered(s.runtime)
    requires (ty == Process && At(s, who, Logged)) || (ty == Metrics && At(s, who, Monitored))
    ensures Admitted(DoSubmit(s, who, ty, sent, if ty == Process then Monitored else Measured))
  {
    var f := s.flights[who];
    DuplicateCheckIsExact(s.runtime.table, f.pid, ty);
    if ListsType(s.runtime.table, f.pid, ty) {
      GiveUpKeepsAdmitted(s, who);
    } else {
      var q := Post(s.runtime, ty, f, sent);
      if ty == Process {
        MonitoredKeepsAdmitted(s, who, q);
      } else {
        MeasuredKeepsAdmitted(s, who, q);
      }
      if !sent {
        LossKeepsAdmitted(s, who, if ty == Process then Monitored else Measured, q);
      }
    }
  }

  lemma SubmitLogKeepsAdmitted(s: State, who: Who, sent: bool)
    requires Admitted(s) && Delivered(s.runtime) && At(s, who, Spawned)
    ensures Admitted(DoSubmitLog(s, who, sent))
  {
    LoggingIsSameWatch(s.runtime.table, s.flights[who].pid);
    FewerWatchedKeepsAdmitted(s, DoSubmitLog(s, who, sent));
  }

  lemma InsertKeepsAdmitted(s: State, who: Who)
    requires Admitted(s) && At(s, who, Measured)
    ensures Admitted(DoInsert(s, who))
  {
    var s' := DoInsert(s, who);
    var f := s.flights[who];
    var e := Entry(f.config, f.pid, f.child, f.root);
    assert forall x :: x in s'.past.inserted <==> x in s.past.inserted || x == e;
    forall i | 0 <= i < |s.past.inserted| ensures s.past.inserted[i].pid != f.pid {
      assert s.past.inserted[i] in s.past.inserted;
    }
  }

  lemma KillIsSameWatch(t: Table, pid: Pid)
    ensures SameWatch(t, Kill(t, pid))
  {
    ShapeIsSameWatch(t, Kill(t, pid));
  }

  lemma StopKeepsAdmitted(s: State, name: string)
    requires Admitted(s)
    ensures Admitted(DoStop(s, name))
  {
    if name in s.entries {
      SameWatchKeepsAdmitted(s, DoStop(s, name));
    }
  }

  lemma FinishKeepsAdmitted(s: State, child: nat)
    requires Admitted(s) && child in s.condemned
    ensures Admitted(DoFinish(s, child))
  {
    KillIsSameWatch(s.runtime.table, s.condemned[child]);
    SameWatchKeepsAdmitted(s, DoFinish(s, child));
  }

  lemma ReceiveKeepsAdmitted(s: State)
    requires Admitted(s) && s.restarts != []
    ensures Admitted(DoReceive(s))
  {
    var name := s.restarts[0];
    if name in s.entries {
      KillIsSameWatch(s.runtime.table, s.entries[name].pid);
      SameWatchKeepsAdmitted(s, DoReceive(s));
    }
  }

  /** Steps that neither register a task, nor change an entry, nor advance a flight past its submission. */
  ghost predicate Bystander(step: Step) {
    step.Start? || step.Abandon? || step.Refork? || step.Recv? || step.Attach? || step.Reap? || step.Send?
    || step.MonitorFails? || step.TaskFails? || step.Exit?
  }

  lemma AttachShape(r: Runtime, ty: TaskType)
    requires Delivered(r) && Chan(r, ty).held.Some?
    ensures SameShape(r.table, Attached(r, ty).table)
  {
    var c := Chan(r, ty);
    assert c.held.value in Flow(c);
    WithHandlesEffect(r.table, c.held.value, SpawnedHandles(ty, c.held.value));
  }

  lemma RecvShape(r: Runtime, ty: TaskType)
    requires Chan(r, ty).queue != []
    ensures SameShape(r.table, Received(r, ty).table)
  {
  }

  lemma MarkShape(r: Runtime, id: TaskId, reason: string)
    ensures SameShape(r.table, Marked(r, id, reason).table)
  {
  }

  lemma BystanderTable(s: State, step: Step, q: Runtime)
    requires Delivered(s.runtime) && Enabled(s, step) && Bystander(step) && RuntimeStep(s, step, q)
    ensures SameShape(s.runtime.table, q.table)
  {
    match step
    case Attach(ty) => AttachShape(s.runtime, ty);
    case Recv(ty) => RecvShape(s.runtime, ty);
    case MonitorFails(id, reason) => MarkShape(s.runtime, id, reason);
    case TaskFails(id, reason) => MarkShape(s.runtime, id, reason);
    case _ =>
  }

  lemma StartIsFrame(s: State, config: ProcessConfig, fork: ForkOutcome)
    ensures SameFrame(s, DoStart(s, config, fork)) && NoNewWatch(s, DoStart(s, config, fork))
  {
  }

  lemma ReforkIsFrame(s: State, fork: ForkOutcome)
    requires s.handler.Respawning?
    ensures SameFrame(s, DoRefork(s, fork)) && NoNewWatch(s, DoRefork(s, fork))
  {
  }

  lemma AbandonIsFrame(s: State, who: Who)
    requires who in s.flights
    ensures SameFrame(s, DoAbandon(s, who)) && NoNewWatch(s, DoAbandon(s, who))
  {
  }

  lemma EnvironmentIsFrame(s: State, step: Step)
    requires Enabled(s, step)
    requires step.Recv? || step.Attach? || step.Reap? || step.Send? || step.MonitorFails? || step.TaskFails?
             || step.Exit?
    ensures var s' := Next(s, step); SameFrame(s, s') && s'.flights == s.flights
  {
  }

  lemma BystanderIsFrame(s: State, step: Step)
    requires Enabled(s, step) && Bystander(step)
    ensures SameFrame(s, Next(s, step)) && NoNewWatch(s, Next(s, step))
  {
    match step
    case Start(config, fork) => StartIsFrame(s, config, fork);
    case Refork(fork) => ReforkIsFrame(s, fork);
    case Abandon(who) => AbandonIsFrame(s, who);
    case _ => EnvironmentIsFrame(s, step);
  }

  lemma StepKeepsAdmitted(s: State, step: Step)
    requires Delivered(s.runtime) && Admitted(s) && Enabled(s, step)
    ensures Admitted(Next(s, step))
  {
    if Bystander(step) {
      NextIsRuntimeStep(s, step);
      BystanderTable(s, step, Next(s, step).runtime);
      BystanderIsFrame(s, step);
      ShapeIsSameWatch(s.runtime.table, Next(s, step).runtime.table);
      FewerWatchedKeepsAdmitted(s, Next(s, step));
    } else {
      match step
      case SubmitLog(who, sent) => SubmitLogKeepsAdmitted(s, who, sent);
      case SubmitMonitor(who, sent) => SubmitKeepsAdmitted(s, who, Process, sent);
      case SubmitMetrics(who, sent) => SubmitKeepsAdmitted(s, who, Metrics, sent);
      case Insert(who) => InsertKeepsAdmitted(s, who);
      case Stop(name) => StopKeepsAdmitted(s, name);
      case Finish(child) => FinishKeepsAdmitted(s, child);
      case Receive => ReceiveKeepsAdmitted(s);
      case Discard => SameWatchKeepsAdmitted(s, DoDiscard(s));
    }
  }

  lemma {:induction false} AlwaysAdmitted(steps: seq<Step>, s: State)
    requires Reaches(steps, s)
    ensures Delivered(s.runtime) && Admitted(s)
  {
    AlwaysDelivered(steps, s);
    if steps != [] {
      var n := |steps| - 1;
      var before := Exec(INIT, steps[..n]).value;
      AlwaysAdmitted(steps[..n], before);
      StepKeepsAdmitted(before, steps[n]);
    }
  }

  // ----- what it means -----

  ghost predicate ExactlyOneTask(t: Table, pid: Pid, ty: TaskType) {
    exists i ::
      && i in t.tasks && t.tasks[i].pid == pid && t.tasks[i].ty == ty
      && (forall j :: j in t.tasks && t.tasks[j].pid == pid && t.tasks[j].ty == ty ==> j == i)
  }

  lemma OneOfAtMostOne(t: Table, pid: Pid, ty: TaskType)
    requires OnePerPid(t) && HasTask(t, pid, ty) && ty != Logging
    ensures ExactlyOneTask(t, pid, ty)
  {
    var i :| i in t.tasks && t.tasks[i].pid == pid && t.tasks[i].ty == ty;
    assert forall j :: j in t.tasks && t.tasks[j].pid == pid && t.tasks[j].ty == ty ==> j == i;
  }

  /** Over a whole run no pid is entered into the registry twice. */
  lemma PidAdmittedAtMostOnce(steps: seq<Step>, s: State, i: nat, j: nat)
    requires Reaches(steps, s)
    requires i < j < |s.past.inserted|
    ensures s.past.inserted[i].pid != s.past.inserted[j].pid
  {
    AlwaysAdmitted(steps, s);
  }

  /** Distinct names hold distinct pids, and every entry is watched by one monitor and one metrics task. */
  lemma EntriesAreDistinctAndWatched(steps: seq<Step>, s: State, n: string, m: string)
    requires Reaches(steps, s) && n in s.entries && m in s.entries
    ensures s.entries[n].pid == s.entries[m].pid <==> n == m
    ensures s.entries[n].config.name == n
    ensures ExactlyOneTask(s.runtime.table, s.entries[n].pid, Process)
    ensures ExactlyOneTask(s.runtime.table, s.entries[n].pid, Metrics)
  {
    AlwaysAdmitted(steps, s);
    var e, d := s.entries[n], s.entries[m];
    assert e in s.past.inserted && d in s.past.inserted;
    forall ty | ty == Process || ty == Metrics ensures ExactlyOneTask(s.runtime.table, e.pid, ty) {
      OneOfAtMostOne(s.runtime.table, e.pid, ty);
    }
  }

  /** The duplicate check of the metrics submission never fires: the process check before it already did. */
  lemma MetricsCheckNeverFires(steps: seq<Step>, s: State, who: Who)
    requires Reaches(steps, s) && At(s, who, Monitored)
    ensures !ListsType(s.runtime.table, s.flights[who].pid, Metrics)
  {
    AlwaysAdmitted(steps, s);
    DuplicateCheckIsExact(s.runtime.table, s.flights[who].pid, Metrics);
  }

  /** The duplicate check of the process submission fires exactly for a pid the run has already submitted. */
  lemma ProcessCheckFiresIffSeen(steps: seq<Step>, s: State, who: Who)
    requires Reaches(steps, s) && At(s, who, Logged)
    ensures ListsType(s.runtime.table, s.flights[who].pid, Process) <==>
            HasTask(s.runtime.table, s.flights[who].pid, Process)
    ensures (exists e :: e in s.past.inserted && e.pid == s.flights[who].pid) ==>
            ListsType(s.runtime.table, s.flights[who].pid, Process)
  {
    AlwaysAdmitted(steps, s);
    DuplicateCheckIsExact(s.runtime.table, s.flights[who].pid, Process);
  }
}
