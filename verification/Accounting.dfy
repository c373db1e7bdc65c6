/**
 No child is lost: every child the kernel knows belongs to a command in
 progress, was entered into the registry, or was sent SIGKILL; except a child
 whose pipes could not be set up after its fork, which nothing remembers.
 */
module Accounting {
  import opened Tasks
  import opened Config
  import opened Machine
  import opened Admission
  import opened Children

  ghost predicate InFlight(flights: map<Who, Flight>, child: nat) {
    exists w :: w in flights && flights[w].child == child
  }

  ghost predicate WasInserted(inserted: seq<Entry>, child: nat) {
    exists e :: e in inserted && e.child == child
  }

  ghost predicate Accounted(s: State, child: nat) {
    || InFlight(s.flights, child)
    || WasInserted(s.past.inserted, child)
    || child in s.condemned
    || child in s.past.signalled
    || child in s.past.leaked
  }

  ghost predicate AllAccounted(s: State) {
    forall c :: Known(s.past.births, s.os, c) ==> Accounted(s, c)
  }

  /**
   The past only grows; a child leaves its flight only for the registry, to be
   condemned, for SIGKILL, or once it is reaped; and a condemned child is killed.
   */
  ghost predicate HandsOver(s: State, s': State) {
    && (forall e :: e in s.past.inserted ==> e in s'.past.inserted)
    && s.past.signalled <= s'.past.signalled
    && s.past.leaked <= s'.past.leaked
    && (forall w :: w in s.flights ==> KeepsFlight(s, s', w))
    && (forall c :: c in s.condemned ==>
          c in s'.condemned || c in s'.past.signalled || !Known(s.past.births, s.os, c))
  }

  ghost predicate KeepsFlight(s: State, s': State, w: Who)
    requires w in s.flights
  {
    || (w in s'.flights && s'.flights[w].child == s.flights[w].child)
    || WasInserted(s'.past.inserted, s.flights[w].child)
    || s.flights[w].child in s'.condemned
    || s.flights[w].child in s'.past.signalled
    || !Known(s.past.births, s.os, s.flights[w].child)
  }

  lemma HandOverKeepsAccounted(s: State, s': State, c: nat)
    requires HandsOver(s, s') && Known(s.past.births, s.os, c) && Accounted(s, c)
    ensures Accounted(s', c)
  {
    if InFlight(s.flights, c) {
      var w :| w in s.flights && s.flights[w].child == c;
      assert KeepsFlight(s, s', w);
    } else if WasInserted(s.past.inserted, c) {
      var e :| e in s.past.inserted && e.child == c;
      assert e in s'.past.inserted;
    }
  }

  lemma StartHandsOver(s: State, config: ProcessConfig, fork: ForkOutcome)
    requires Kept(s) && Free(s, fork)
    ensures HandsOver(s, DoStart(s, config, fork))
    ensures var s' := DoStart(s, config, fork);
            |s'.past.births| == Newborn(s) || (Accounted(s', Newborn(s)) && |s'.past.births| == Newborn(s) + 1)
  {
    ClientIsFresh(s);
    var s' := DoStart(s, config, fork);
    forall w | w in s.flights ensures KeepsFlight(s, s', w) {
      assert w in s'.flights && s'.flights[w] == s.flights[w];
    }
    if |s'.past.births| != Newborn(s) {
      var w := Client(Newborn(s));
      assert Newborn(s) in s'.past.leaked || (w in s'.flights && s'.flights[w].child == Newborn(s));
    }
  }

  lemma ReforkHandsOver(s: State, fork: ForkOutcome)
    requires Kept(s) && s.handler.Respawning?
    ensures HandsOver(s, DoRefork(s, fork))
    ensures var s' := DoRefork(s, fork);
            |s'.past.births| == Newborn(s) || (Accounted(s', Newborn(s)) && |s'.past.births| == Newborn(s) + 1)
  {
    ClientIsFresh(s);
    var s' := DoRefork(s, fork);
    forall w | w in s.flights ensures KeepsFlight(s, s', w) {
      assert w in s'.flights && s'.flights[w] == s.flights[w];
    }
    if |s'.past.births| != Newborn(s) {
      assert Newborn(s) in s'.past.leaked || (Restarter in s'.flights && s'.flights[Restarter].child == Newborn(s));
    }
  }

  lemma ForkHandsOver(s: State, step: Step)
    requires Kept(s) && Enabled(s, step) && (step.Start? || step.Refork?)
    ensures HandsOver(s, Next(s, step))
    ensures var s' := Next(s, step);
            |s'.past.births| == Newborn(s) || (Accounted(s', Newborn(s)) && |s'.past.births| == Newborn(s) + 1)
  {
    match step
    case Start(config, fork) => StartHandsOver(s, config, fork);
    case Refork(fork) => ReforkHandsOver(s, fork);
  }

  lemma AbandonHandsOver(s: State, who: Who)
    requires Kept(s) && who in s.flights
    ensures HandsOver(s, DoAbandon(s, who))
  {
    var s' := DoAbandon(s, who);
    var f := s.flights[who];
    assert Recorded(s.past.births, f.child, Birth(f.pid, f.config, f.root));
    forall w | w in s.flights ensures KeepsFlight(s, s', w) {
      if w != who {
        assert w in s'.flights && s'.flights[w] == s.flights[w];
      }
    }
  }

  lemma GiveUpHandsOver(s: State, who: Who, q: Runtime)
    requires who in s.flights
    ensures HandsOver(s, GiveUp(s, who, q))
  {
    var s' := GiveUp(s, who, q);
    forall w | w in s.flights ensures KeepsFlight(s, s', w) {
      if w != who {
        assert w in s'.flights && s'.flights[w] == s.flights[w];
      }
    }
  }

  lemma SignalHits(s: State, pid: Pid, child: nat)
    requires child < |s.past.births| && s.past.births[child].pid == pid
    ensures child in Signal(s, pid).past.signalled || !Known(s.past.births, s.os, child)
    ensures s.past.signalled <= Signal(s, pid).past.signalled
    ensures Known(s.past.births, s.os, child) ==> Signal(s, pid).past.signalled == s.past.signalled + {child}
    ensures pid !in s.os ==> Signal(s, pid).past.signalled == s.past.signalled
  {
  }

  lemma FinishHandsOver(s: State, child: nat)
    requires Apart(s.past, s.condemned, s.flights, s.entries) && child in s.condemned
    ensures HandsOver(s, DoFinish(s, child))
  {
    SignalHits(s, s.condemned[child], child);
    var s' := DoFinish(s, child);
    assert s'.flights == s.flights && s'.past.inserted == s.past.inserted && s'.past.leaked == s.past.leaked;
  }

  lemma AdvanceHandsOver(s: State, who: Who, stage: Stage, q: Runtime)
    requires who in s.flights
    ensures HandsOver(s, Advance(s, who, stage, q))
  {
  }

  lemma InsertHandsOver(s: State, who: Who)
    requires who in s.flights
    ensures HandsOver(s, DoInsert(s, who))
  {
    var s' := DoInsert(s, who);
    var f := s.flights[who];
    assert Entry(f.config, f.pid, f.child, f.root) in s'.past.inserted;
    forall w | w in s.flights ensures KeepsFlight(s, s', w) {
      if w != who {
        assert w in s'.flights && s'.flights[w] == s.flights[w];
      }
    }
  }

  lemma SubmitHandsOver(s: State, who: Who, ty: TaskType, sent: bool, stage: Stage)
    requires who in s.flights
    ensures HandsOver(s, DoSubmit(s, who, ty, sent, stage))
  {
    var f := s.flights[who];
    GiveUpHandsOver(s, who, s.runtime);
    GiveUpHandsOver(s, who, Post(s.runtime, ty, f, false));
    AdvanceHandsOver(s, who, stage, Post(s.runtime, ty, f, true));
  }

  lemma QuietHandsOver(s: State, s': State)
    requires s'.flights == s.flights && s'.past.inserted == s.past.inserted && s'.past.leaked == s.past.leaked
    requires s.past.signalled <= s'.past.signalled && s.condemned.Keys <= s'.condemned.Keys
    ensures HandsOver(s, s')
  {
  }

  lemma IdleHandsOver(s: State, step: Step)
    requires Enabled(s, step)
    requires step.Recv? || step.Attach? || step.Reap? || step.Send? || step.MonitorFails? || step.TaskFails?
             || step.Exit?
    ensures HandsOver(s, Next(s, step))
  {
    QuietHandsOver(s, Next(s, step));
  }

  lemma RemovalHandsOver(s: State, step: Step)
    requires Enabled(s, step) && (step.Stop? || step.Receive? || step.Discard?)
    ensures HandsOver(s, Next(s, step))
  {
    QuietHandsOver(s, Next(s, step));
  }

  lemma StepHandsOver(s: State, step: Step)
    requires Kept(s) && Enabled(s, step)
    ensures HandsOver(s, Next(s, step))
  {
    match step
    case Start(_, _) => ForkHandsOver(s, step);
    case Refork(_) => ForkHandsOver(s, step);
    case Abandon(who) => AbandonHandsOver(s, who);
    case Finish(child) => FinishHandsOver(s, child);
    case SubmitLog(who, sent) => AdvanceHandsOver(s, who, Logged, Post(s.runtime, Logging, s.flights[who], sent));
    case SubmitMonitor(who, sent) => SubmitHandsOver(s, who, Process, sent, Monitored);
    case SubmitMetrics(who, sent) => SubmitHandsOver(s, who, Metrics, sent, Measured);
    case Insert(who) => InsertHandsOver(s, who);
    case Stop(_) => RemovalHandsOver(s, step);
    case Receive => RemovalHandsOver(s, step);
    case Discard => RemovalHandsOver(s, step);
    case _ => IdleHandsOver(s, step);
  }

  ghost predicate SameKernel(s: State, s': State) {
    s'.os == s.os && s'.past.births == s.past.births && s'.past.leaked == s.past.leaked
  }

  lemma GiveUpLeavesKernel(s: State, who: Who, r: Runtime)
    requires who in s.flights
    ensures SameKernel(s, GiveUp(s, who, r))
  {
  }

  lemma SubmitLeavesKernel(s: State, who: Who, ty: TaskType, sent: bool, stage: Stage)
    requires who in s.flights
    ensures SameKernel(s, DoSubmit(s, who, ty, sent, stage))
  {
    GiveUpLeavesKernel(s, who, s.runtime);
    GiveUpLeavesKernel(s, who, Post(s.runtime, ty, s.flights[who], false));
  }

  lemma KillLeavesKernel(s: State, child: nat)
    requires child in s.condemned
    ensures SameKernel(s, DoFinish(s, child))
  {
  }

  lemma ReceiveLeavesKernel(s: State)
    requires s.restarts != []
    ensures SameKernel(s, DoReceive(s))
  {
  }

  lemma EndLeavesKernel(s: State, who: Who)
    requires who in s.flights
    ensures SameKernel(s, DoAbandon(s, who)) && SameKernel(s, DoInsert(s, who))
  {
  }

  lemma TaskLeavesKernel(s: State, step: Step)
    requires Enabled(s, step)
    requires step.SubmitLog? || step.Stop? || step.Discard? || step.Recv? || step.Attach? || step.Send?
             || step.MonitorFails? || step.TaskFails?
    ensures SameKernel(s, Next(s, step))
  {
  }

  /** Only forks, reaps and exits change what the kernel knows; only forks leak. */
  lemma StepLeavesKernel(s: State, step: Step)
    requires Enabled(s, step) && !step.Start? && !step.Refork? && !step.Reap? && !step.Exit?
    ensures SameKernel(s, Next(s, step))
  {
    if step.SubmitMonitor? {
      SubmitLeavesKernel(s, step.who, Process, step.sent, Monitored);
    } else if step.SubmitMetrics? {
      SubmitLeavesKernel(s, step.who, Metrics, step.sent, Measured);
    } else if step.Abandon? || step.Insert? {
      EndLeavesKernel(s, step.who);
    } else if step.Finish? {
      KillLeavesKernel(s, step.child);
    } else if step.Receive? {
      ReceiveLeavesKernel(s);
    } else {
      TaskLeavesKernel(s, step);
    }
  }

  lemma GiveForgets(births: seq<Birth>, os: map<Pid, Child>, birth: Birth, c: nat)
    requires Known(births + [birth], os[birth.pid := Child(|births|, false)], c)
    ensures Known(births, os, c) || c == |births|
  {
  }

  lemma StartForgets(s: State, config: ProcessConfig, fork: ForkOutcome, c: nat)
    requires Known(DoStart(s, config, fork).past.births, DoStart(s, config, fork).os, c)
    ensures Known(s.past.births, s.os, c) || c == Newborn(s)
  {
    if config.name !in s.entries && fork != Refused {
      GiveForgets(s.past.births, s.os, Birth(fork.pid, config, Newborn(s)), c);
    }
  }

  lemma ReforkForgets(s: State, fork: ForkOutcome, c: nat)
    requires s.handler.Respawning?
    requires Known(DoRefork(s, fork).past.births, DoRefork(s, fork).os, c)
    ensures Known(s.past.births, s.os, c) || c == Newborn(s)
  {
    if fork != Refused {
      GiveForgets(s.past.births, s.os, Birth(fork.pid, s.handler.config, s.handler.root), c);
    }
  }

  /** A step makes no child known again: every known child was known before or is newborn. */
  lemma StepForgets(s: State, step: Step, c: nat)
    requires Enabled(s, step)
    requires Known(Next(s, step).past.births, Next(s, step).os, c)
    ensures Known(s.past.births, s.os, c) || (c == Newborn(s) && (step.Start? || step.Refork?))
  {
    match step
    case Start(config, fork) => StartForgets(s, config, fork, c);
    case Refork(fork) => ReforkForgets(s, fork, c);
    case Reap(_) =>
    case Exit(_) =>
    case _ => StepLeavesKernel(s, step);
  }

  lemma StepKeepsAccounted(s: State, step: Step)
    requires Kept(s) && AllAccounted(s) && Enabled(s, step)
    ensures AllAccounted(Next(s, step))
  {
    var s' := Next(s, step);
    StepHandsOver(s, step);
    forall c | Known(s'.past.births, s'.os, c) ensures Accounted(s', c) {
      StepForgets(s, step, c);
      if Known(s.past.births, s.os, c) {
        HandOverKeepsAccounted(s, s', c);
      } else {
        ForkHandsOver(s, step);
      }
    }
  }

  lemma {:induction false} AlwaysAccounted(steps: seq<Step>, s: State)
    requires Reaches(steps, s)
    ensures Sound(s) && AllAccounted(s)
  {
    AlwaysSound(steps, s);
    if steps != [] {
      var n := |steps| - 1;
      var before := Exec(INIT, steps[..n]).value;
      AlwaysAccounted(steps[..n], before);
      StepKeepsAccounted(before, steps[n]);
    }
  }

  // ----- what it means -----

  /** A child the kernel knows although nobody in the supervisor ever took charge of it or killed it. */
  ghost predicate Orphaned(s: State, child: nat) {
    && Known(s.past.births, s.os, child)
    && !InFlight(s.flights, child)
    && !WasInserted(s.past.inserted, child)
    && child !in s.condemned
    && child !in s.past.signalled
  }

  /** The orphans are exactly the leaked children that no later SIGKILL happened to hit. */
  lemma OrphansAreTheLeaked(steps: seq<Step>, s: State, child: nat)
    requires Reaches(steps, s)
    ensures Orphaned(s, child) <==>
            Known(s.past.births, s.os, child) && child in s.past.leaked && child !in s.past.signalled
  {
    AlwaysAccounted(steps, s);
    if child in s.past.leaked {
      assert forall w :: w in s.flights ==> s.flights[w].child != child;
      assert forall e :: e in s.past.inserted ==> e.child != child;
    }
  }

  ghost predicate Leaks(s: State, step: Step) {
    || (step.Start? && step.fork.StreamsFailed? && step.config.name !in s.entries)
    || (step.Refork? && step.fork.StreamsFailed?)
  }

  lemma StartLeaks(s: State, config: ProcessConfig, fork: ForkOutcome)
    requires Newborn(s) !in s.past.leaked
    ensures DoStart(s, config, fork).past.leaked != s.past.leaked <==> fork.StreamsFailed? && config.name !in s.entries
  {
    var s' := DoStart(s, config, fork);
    assert fork.StreamsFailed? && config.name !in s.entries ==> Newborn(s) in s'.past.leaked;
  }

  lemma ReforkLeaks(s: State, fork: ForkOutcome)
    requires Newborn(s) !in s.past.leaked && s.handler.Respawning?
    ensures DoRefork(s, fork).past.leaked != s.past.leaked <==> fork.StreamsFailed?
  {
    assert fork.StreamsFailed? ==> Newborn(s) in DoRefork(s, fork).past.leaked;
  }

  /** A step leaks a child exactly when it forks one and then fails to set up its pipes. */
  lemma LeaksIffStreamsFail(s: State, step: Step)
    requires PastRecorded(s.past) && Enabled(s, step)
    ensures Next(s, step).past.leaked != s.past.leaked <==> Leaks(s, step)
  {
    assert Newborn(s) !in s.past.leaked;
    match step
    case Start(config, fork) => StartLeaks(s, config, fork);
    case Refork(fork) => ReforkLeaks(s, fork);
    case Reap(_) =>
    case Exit(_) =>
    case _ => StepLeavesKernel(s, step);
  }

  lemma KillCompletes(r: Runtime, pid: Pid)
    requires Agree(r.table)
    ensures forall i :: i in KillTasks(r, pid).table.tasks && r.table.tasks[i].pid == pid
                ==> KillTasks(r, pid).table.tasks[i].status == Completed
    ensures forall i :: i in KillTasks(r, pid).table.tasks
                ==> KillTasks(r, pid).table.tasks[i].pid == r.table.tasks[i].pid
  {
    KillReachesEveryTask(r.table, pid);
  }

  /** A submission that ends its flight is a `GiveUp`, of the runtime as it was or with the lost task registered. */
  lemma FailedSubmissionGivesUp(s: State, who: Who, ty: TaskType, sent: bool, stage: Stage) returns (r: Runtime)
    requires who in s.flights && Agree(s.runtime.table) && who !in DoSubmit(s, who, ty, sent, stage).flights
    ensures DoSubmit(s, who, ty, sent, stage) == GiveUp(s, who, r) && Agree(r.table)
  {
    var f := s.flights[who];
    AdmitKeepsAgree(s.runtime.table, f.pid, ty);
    r := if ListsType(s.runtime.table, f.pid, ty) then s.runtime else Post(s.runtime, ty, f, false);
  }

  ghost predicate AllCompleted(t: Table, pid: Pid) {
    forall i :: i in t.tasks && t.tasks[i].pid == pid ==> t.tasks[i].status == Completed
  }

  /** When a condemned child's turn comes, SIGKILL hits it unless it was reaped before, and its tasks are completed. */
  lemma FinishKills(s: State, child: nat)
    requires Apart(s.past, s.condemned, s.flights, s.entries) && Agree(s.runtime.table) && child in s.condemned
    ensures var s' := DoFinish(s, child);
            && (child in s'.past.signalled || !Known(s.past.births, s.os, child))
            && AllCompleted(s'.runtime.table, s.condemned[child])
            && child !in s'.condemned
    ensures var hit := DoFinish(s, child).past.signalled;
            && (Known(s.past.births, s.os, child) ==> hit == s.past.signalled + {child})
            && (s.condemned[child] !in s.os ==> hit == s.past.signalled)
  {
    SignalHits(s, s.condemned[child], child);
    KillCompletes(s.runtime, s.condemned[child]);
  }

  ghost predicate StaysCondemned(s: State, s': State, child: nat) {
    child in s.condemned ==> child in s'.condemned && s'.condemned[child] == s.condemned[child]
  }

  lemma StartReleasesNobody(s: State, config: ProcessConfig, fork: ForkOutcome)
    ensures DoStart(s, config, fork).condemned == s.condemned
  {
  }

  lemma ReforkReleasesNobody(s: State, fork: ForkOutcome)
    requires s.handler.Respawning?
    ensures DoRefork(s, fork).condemned == s.condemned
  {
  }

  lemma SubmitReleasesNobody(s: State, who: Who, ty: TaskType, sent: bool, stage: Stage, child: nat)
    requires who in s.flights && s.flights[who].child !in s.condemned
    ensures StaysCondemned(s, DoSubmit(s, who, ty, sent, stage), child)
  {
  }

  lemma EndReleasesNobody(s: State, who: Who)
    requires who in s.flights
    ensures DoAbandon(s, who).condemned == s.condemned && DoInsert(s, who).condemned == s.condemned
  {
  }

  lemma ReceiveReleasesNobody(s: State)
    requires s.restarts != []
    ensures DoReceive(s).condemned == s.condemned
  {
  }

  lemma EnvironmentReleasesNobody(s: State, step: Step)
    requires Enabled(s, step)
    requires step.SubmitLog? || step.Recv? || step.Attach? || step.Reap? || step.Send? || step.MonitorFails?
             || step.TaskFails? || step.Exit?
    ensures Next(s, step).condemned == s.condemned
  {
  }

  lemma StepReleasesNobody(s: State, step: Step, child: nat)
    requires Enabled(s, step) && step != Finish(child)
    requires forall w :: w in s.flights ==> s.flights[w].child !in s.condemned
    requires forall n :: n in s.entries ==> s.entries[n].child !in s.condemned
    ensures StaysCondemned(s, Next(s, step), child)
  {
    match step
    case Start(config, fork) => StartReleasesNobody(s, config, fork);
    case Refork(fork) => ReforkReleasesNobody(s, fork);
    case SubmitMonitor(who, sent) => SubmitReleasesNobody(s, who, Process, sent, Monitored, child);
    case SubmitMetrics(who, sent) => SubmitReleasesNobody(s, who, Metrics, sent, Measured, child);
    case Stop(_) =>
    case Finish(_) =>
    case Abandon(who) => EndReleasesNobody(s, who);
    case Insert(who) => EndReleasesNobody(s, who);
    case Receive => ReceiveReleasesNobody(s);
    case Discard =>
    case _ => EnvironmentReleasesNobody(s, step);
  }

  /** A condemned child stays condemned until its turn comes. */
  lemma OnlyFinishReleases(steps: seq<Step>, s: State, step: Step, child: nat)
    requires Reaches(steps, s) && Enabled(s, step) && child in s.condemned && step != Finish(child)
    ensures StaysCondemned(s, Next(s, step), child)
  {
    AlwaysSound(steps, s);
    StepReleasesNobody(s, step, child);
  }

  lemma GivenUpIsKilled(s: State, who: Who, r: Runtime)
    requires Records(s) && Holders(s) && EntriesInserted(s.entries, s.past.inserted)
    requires who in s.flights && Agree(r.table)
    ensures var f, s' := s.flights[who], GiveUp(s, who, r);
            && f.child in s'.condemned && s'.condemned[f.child] == f.pid
            && (who == Restarter ==> s'.handler == Gone(false))
            && var s'' := DoFinish(s', f.child);
               && (f.child in s''.past.signalled || !Known(s.past.births, s.os, f.child))
               && AllCompleted(s''.runtime.table, f.pid)
  {
    GiveUpStaysApart(s, who, r);
    GiveUpLeavesKernel(s, who, r);
    FinishKills(GiveUp(s, who, r), s.flights[who].child);
  }

  /**
   A failed submission of `start` or of the restart handler, whether refused as a
   duplicate or not sent, condemns the child; carried out at once, the kill hits it
   (unless its own monitor has already reaped it) and completes every task of its pid.
   */
  lemma FailedSubmissionKills(steps: seq<Step>, s: State, step: Step)
    requires Reaches(steps, s) && Enabled(s, step) && (step.SubmitMonitor? || step.SubmitMetrics?)
    requires step.who !in Next(s, step).flights
    ensures var f, s' := s.flights[step.who], Next(s, step);
            && f.child in s'.condemned && s'.condemned[f.child] == f.pid
            && (step.who == Restarter ==> s'.handler == Gone(false))
            && var s'' := DoFinish(s', f.child);
               && (f.child in s''.past.signalled || (Watched(f) && !Known(s.past.births, s.os, f.child)))
               && AllCompleted(s''.runtime.table, f.pid)
  {
    AlwaysSound(steps, s);
    var f := s.flights[step.who];
    var ty := if step.SubmitMonitor? then Process else Metrics;
    var stage := if step.SubmitMonitor? then Monitored else Measured;
    assert Next(s, step) == DoSubmit(s, step.who, ty, step.sent, stage);
    var r := FailedSubmissionGivesUp(s, step.who, ty, step.sent, stage);
    GivenUpIsKilled(s, step.who, r);
    assert !Watched(f) ==> Known(s.past.births, s.os, f.child);
  }

  /** Failing before any submission always hits the child and touches no task. */
  lemma AbandonKills(steps: seq<Step>, s: State, who: Who)
    requires Reaches(steps, s) && Enabled(s, Abandon(who))
    ensures var s' := Next(s, Abandon(who));
            && who !in s'.flights && s'.runtime == s.runtime
            && s'.past.signalled == s.past.signalled + {s.flights[who].child}
            && (who == Restarter ==> s'.handler == Gone(false))
  {
    AlwaysSound(steps, s);
    var f := s.flights[who];
    assert Recorded(s.past.births, f.child, Birth(f.pid, f.config, f.root));
    assert Known(s.past.births, s.os, f.child);
  }

  /** Every task of the pid is completed, and every handle it had is aborted. */
  ghost predicate Cleared(r: Runtime, q: Runtime, pid: Pid) {
    && AllCompleted(q.table, pid)
    && forall i, h :: i in r.table.tasks && r.table.tasks[i].pid == pid && h in r.table.tasks[i].handles ==>
         h in q.aborted
  }

  lemma KillClears(r: Runtime, pid: Pid)
    requires Agree(r.table)
    ensures Cleared(r, KillTasks(r, pid), pid)
  {
    KillCompletes(r, pid);
    KillReachesEveryTask(r.table, pid);
  }

  /** A kill clears the condemned child's pid; so does the handler for the entry it takes, respawning or not. */
  lemma KillsClearThePid(steps: seq<Step>, s: State, child: nat)
    requires Reaches(steps, s)
    ensures Enabled(s, Finish(child)) ==> Cleared(s.runtime, Next(s, Finish(child)).runtime, s.condemned[child])
    ensures Enabled(s, Receive) && s.restarts[0] in s.entries ==>
              Cleared(s.runtime, Next(s, Receive).runtime, s.entries[s.restarts[0]].pid)
  {
    assert Agree(s.runtime.table) by { AlwaysSound(steps, s); }
    if Enabled(s, Finish(child)) {
      KillClears(s.runtime, s.condemned[child]);
    }
    if Enabled(s, Receive) && s.restarts[0] in s.entries {
      KillClears(s.runtime, s.entries[s.restarts[0]].pid);
    }
  }

  // ----- failures and exits -----

  ghost predicate OnlyTaskFailed(t: Table, u: Table, id: TaskId, reason: string) {
    && id in t.tasks && u.index == t.index && u.next == t.next
    && u.tasks == t.tasks[id := TaskInfo(t.tasks[id].id, t.tasks[id].pid, t.tasks[id].ty, t.tasks[id].handles,
                                         Failed(reason))]
  }

  /** A future or a monitor that ends with an error marks its own task failed, with the reason, and no other. */
  lemma FailureIsRecorded(steps: seq<Step>, s: State, step: Step)
    requires Reaches(steps, s) && Enabled(s, step) && (step.TaskFails? || step.MonitorFails?)
    ensures var s' := Next(s, step);
            && OnlyTaskFailed(s.runtime.table, s'.runtime.table, step.id, step.reason)
            && s'.monitors == (if step.MonitorFails? then s.monitors - {step.id} else s.monitors)
            && s'.restarts == s.restarts && s'.sending == s.sending && s'.entries == s.entries
  {
    assert step.id in s.runtime.table.tasks by { AlwaysSound(steps, s); }
  }

  lemma StartedIsRunning(s: State, config: ProcessConfig, fork: ForkOutcome, pid: Pid)
    requires var os := DoStart(s, config, fork).os; pid in os && os[pid].exited
    ensures pid in s.os && s.os[pid].exited
  {
  }

  lemma RespawnedIsRunning(s: State, fork: ForkOutcome, pid: Pid)
    requires s.handler.Respawning?
    requires var os := DoRefork(s, fork).os; pid in os && os[pid].exited
    ensures pid in s.os && s.os[pid].exited
  {
  }

  lemma OnlyExitExits(s: State, step: Step, pid: Pid)
    requires Enabled(s, step) && step != Exit(pid)
    requires pid in Next(s, step).os && Next(s, step).os[pid].exited
    ensures pid in s.os && s.os[pid].exited
  {
    match step
    case Start(config, fork) => StartedIsRunning(s, config, fork, pid);
    case Refork(fork) => RespawnedIsRunning(s, fork, pid);
    case Reap(_) =>
    case Exit(_) =>
    case _ => StepLeavesKernel(s, step);
  }

  lemma {:induction false} ExitedHasExited(steps: seq<Step>, s: State, pid: Pid)
    requires Reaches(steps, s) && pid in s.os && s.os[pid].exited
    ensures Exit(pid) in steps
  {
    if steps != [] {
      var n := |steps| - 1;
      var before := Exec(INIT, steps[..n]).value;
      if steps[n] != Exit(pid) {
        OnlyExitExits(before, steps[n], pid);
        ExitedHasExited(steps[..n], before, pid);
      }
    }
  }

  /** Only a process that has exited is reaped: no running one is ever reported. */
  lemma ReapedHasExited(steps: seq<Step>, s: State, id: TaskId)
    requires Reaches(steps, s) && Enabled(s, Reap(id))
    ensures Exit(s.monitors[id].pid) in steps
  {
    ExitedHasExited(steps, s, s.monitors[id].pid);
  }
}
