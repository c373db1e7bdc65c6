/**
 What the discipline buys over whole runs, where it is exactly the condition,
 and what `stop` promises with no discipline at all.
 */
module Promises {
  import opened Tasks
  import opened Config
  import opened Machine
  import opened Children
  import opened Accounting
  import opened Discipline

  // ----- requests -----

  /**
   In a disciplined run a name has at most one request, queued or about to be sent,
   and it is for a present incarnation whose process has exited and been reaped.
   */
  lemma RequestsMatch(steps: seq<Step>, s: State, name: string)
    requires Reaches(steps, s) && DisciplinedRun(steps) && Requested(s, name)
    ensures NoDuplicates(s.restarts) && !(name in s.restarts && Speaking(s.sending, name))
    ensures forall i, j :: i in s.sending && j in s.sending && s.sending[i].name == name == s.sending[j].name ==> i == j
    ensures exists c: nat ::
              c < |s.past.births| && Carried(s.entries, s.flights, name, c) && !Known(s.past.births, s.os, c)
  {
    DisciplineKeepsCorrespondence(steps, s);
    RequestHasACarrier(s, name);
  }

  lemma RequestHasACarrier(s: State, name: string)
    requires SendersReaped(s.past.births, s.os, s.sending) && SendersCarried(s) && RequestsCarried(s)
    requires Requested(s, name)
    ensures exists c: nat ::
              c < |s.past.births| && Carried(s.entries, s.flights, name, c) && !Known(s.past.births, s.os, c)
  {
    if name in s.restarts {
      assert RequestCarried(s, name);
    } else {
      var id :| id in s.sending && s.sending[id].name == name;
      assert Spoke(s.past.births, s.os, s.sending[id]);
    }
  }

  /** A request taken in a disciplined run finds its entry, and discards no child the kernel still knows. */
  lemma TakenRequestIsOfADeadEntry(steps: seq<Step>, s: State)
    requires Reaches(steps, s) && DisciplinedRun(steps) && Enabled(s, Receive) && Disciplined(s, Receive)
    ensures s.restarts[0] in s.entries
    ensures !Known(s.past.births, s.os, s.entries[s.restarts[0]].child)
  {
    DisciplineKeepsCorrespondence(steps, s);
    RequestFindsItsEntry(s);
  }

  /** In a disciplined run the handler's `unwrap` never fails. */
  lemma HandlerNeverPanics(steps: seq<Step>, s: State)
    requires Reaches(steps, s) && DisciplinedRun(steps)
    ensures s.handler != Gone(true)
  {
    DisciplineKeepsCorrespondence(steps, s);
  }

  /**
   After a disciplined run the handler panics on its next request exactly if a
   `start` of that name is still between its fork and its insertion: the process
   exited before it was entered.
   */
  lemma PanicsIffStillStarting(steps: seq<Step>, s: State)
    requires Reaches(steps, s) && DisciplinedRun(steps) && Enabled(s, Receive)
    ensures Next(s, Receive).handler == Gone(true) <==> Starting(s.flights, s.restarts[0])
  {
    DisciplineKeepsCorrespondence(steps, s);
    ReceiveIsExact(s);
  }

  // ----- commands -----

  /** A `start` that forks keeps the correspondence exactly if no other operation on its name is in progress. */
  lemma StartIsSafeIffNameIsFree(steps: seq<Step>, s: State, config: ProcessConfig, pid: Pid)
    requires Reaches(steps, s) && DisciplinedRun(steps) && config.name !in s.entries && pid !in s.os
    ensures Corresponds(DoStart(s, config, Forked(pid))) <==>
            !Placed(s.flights, config.name) && !Busy(s.handler, config.name)
  {
    NextStepIsExact(steps, s, Start(config, Forked(pid)));
  }

  /** A metrics submission that is lost keeps it exactly if no request for its child is on its way. */
  lemma GivingUpIsSafeIffUnrequested(steps: seq<Step>, s: State, who: Who)
    requires Reaches(steps, s) && DisciplinedRun(steps) && At(s, who, Monitored)
    ensures Corresponds(Next(s, SubmitMetrics(who, false))) <==> MayGiveUp(s, who)
  {
    NextStepIsExact(steps, s, SubmitMetrics(who, false));
  }

  /** No request of the name is on its way, and the kill will reach the monitor. */
  ghost predicate Settled(s: State, name: string, child: nat) {
    !Requested(s, name) && Reachable(s, child)
  }

  /**
   `stop` carried out without interruption keeps requests and entries in
   correspondence exactly if the child is settled. In between the removal and the
   kill, `Discipline.NextStepIsExact` says what may happen: anything but the reaping
   of the condemned child and what breaks the correspondence anyway.
   */
  lemma StopIsSafeIffSettled(steps: seq<Step>, s: State, name: string)
    requires Reaches(steps, s) && DisciplinedRun(steps) && name in s.entries
    ensures var child, t := s.entries[name].child, DoStop(s, name);
            Corresponds(t) && Corresponds(DoFinish(t, child)) <==> Settled(s, name, child)
  {
    var child, t := s.entries[name].child, DoStop(s, name);
    assert Corresponds(t) <==> !Requested(s, name) by {
      DisciplineKeepsCorrespondence(steps, s);
      StopIsExact(s, name);
    }
    assert Corresponds(t) ==> (Corresponds(DoFinish(t, child)) <==> Reachable(t, child)) by {
      AlwaysSound(steps, s);
      StepKeepsSound(s, Stop(name));
      if Corresponds(t) {
        FinishIsExact(t, child);
      }
    }
    StopReachesNobody(s, name, child);
  }

  lemma StopReachesNobody(s: State, name: string, child: nat)
    ensures Reachable(DoStop(s, name), child) <==> Reachable(s, child)
  {
  }

  /** A condemned child that is reaped before its kill breaks the correspondence; any other child may be reaped. */
  lemma ReapIsSafeIffNotCondemned(steps: seq<Step>, s: State, id: TaskId)
    requires Reaches(steps, s) && DisciplinedRun(steps) && Enabled(s, Reap(id))
    ensures Corresponds(Next(s, Reap(id))) <==> s.monitors[id].child !in s.condemned
  {
    NextStepIsExact(steps, s, Reap(id));
  }

  // ----- no child runs unmanaged -----

  ghost predicate Managed(s: State, child: nat) {
    || InFlight(s.flights, child)
    || (exists n :: n in s.entries && s.entries[n].child == child)
    || child in s.condemned
    || child in s.past.signalled
    || child in s.past.leaked
  }

  ghost predicate AllManaged(s: State) {
    forall c: nat :: Known(s.past.births, s.os, c) ==> Managed(s, c)
  }

  /** An entry's child leaves the registry only condemned or reaped. */
  ghost predicate KeepsEntries(s: State, s': State) {
    forall n :: n in s.entries ==>
      || (n in s'.entries && s'.entries[n] == s.entries[n])
      || s.entries[n].child in s'.condemned
      || !Known(s.past.births, s.os, s.entries[n].child)
  }

  lemma StopKeepsEntries(s: State, name: string)
    ensures KeepsEntries(s, DoStop(s, name))
  {
  }

  lemma ReceiveKeepsEntries(s: State)
    requires s.restarts != [] && s.restarts[0] in s.entries
    requires !Known(s.past.births, s.os, s.entries[s.restarts[0]].child)
    ensures KeepsEntries(s, DoReceive(s))
  {
  }

  lemma EntryRemovalKeepsEntries(s: State, step: Step)
    requires Sound(s) && Corresponds(s) && Enabled(s, step) && Disciplined(s, step)
    requires step.Stop? || step.Receive? || step.Discard?
    ensures KeepsEntries(s, Next(s, step))
  {
    match step
    case Stop(name) => StopKeepsEntries(s, name);
    case Receive =>
      RequestFindsItsEntry(s);
      ReceiveKeepsEntries(s);
    case Discard => DiscardKeepsCorresponds(s);
  }

  lemma InsertKeepsEntries(s: State, who: Who)
    requires NamesUnique(s.entries, s.flights, s.handler) && who in s.flights
    ensures KeepsEntries(s, DoInsert(s, who))
  {
  }

  ghost predicate SameRegistry(s: State, s': State) {
    s'.entries == s.entries && s'.past.inserted == s.past.inserted
  }

  lemma StartLeavesRegistry(s: State, config: ProcessConfig, fork: ForkOutcome)
    ensures SameRegistry(s, DoStart(s, config, fork))
  {
  }

  lemma ReforkLeavesRegistry(s: State, fork: ForkOutcome)
    requires s.handler.Respawning?
    ensures SameRegistry(s, DoRefork(s, fork))
  {
  }

  lemma EndLeavesRegistry(s: State, who: Who, r: Runtime)
    requires who in s.flights
    ensures SameRegistry(s, GiveUp(s, who, r)) && SameRegistry(s, DoAbandon(s, who))
  {
  }

  lemma SubmitLeavesRegistry(s: State, who: Who, ty: TaskType, sent: bool, stage: Stage)
    requires who in s.flights
    ensures SameRegistry(s, DoSubmit(s, who, ty, sent, stage))
  {
    EndLeavesRegistry(s, who, s.runtime);
    EndLeavesRegistry(s, who, Post(s.runtime, ty, s.flights[who], false));
  }

  lemma EnvironmentLeavesRegistry(s: State, step: Step)
    requires Enabled(s, step)
    requires step.SubmitLog? || step.Finish? || step.Recv? || step.Attach? || step.Reap? || step.Send?
             || step.MonitorFails? || step.TaskFails? || step.Exit?
    ensures SameRegistry(s, Next(s, step))
  {
  }

  /** Only insertion, `stop` and the handler change the registry. */
  lemma OthersLeaveRegistry(s: State, step: Step)
    requires Enabled(s, step) && !step.Insert? && !step.Stop? && !step.Receive? && !step.Discard?
    ensures SameRegistry(s, Next(s, step))
  {
    match step
    case Start(config, fork) => StartLeavesRegistry(s, config, fork);
    case Refork(fork) => ReforkLeavesRegistry(s, fork);
    case Abandon(who) => EndLeavesRegistry(s, who, s.runtime);
    case SubmitMonitor(who, sent) => SubmitLeavesRegistry(s, who, Process, sent, Monitored);
    case SubmitMetrics(who, sent) => SubmitLeavesRegistry(s, who, Metrics, sent, Measured);
    case _ => EnvironmentLeavesRegistry(s, step);
  }

  lemma OnlyInsertionInserts(s: State, step: Step)
    requires Enabled(s, step) && !step.Insert?
    ensures Next(s, step).past.inserted == s.past.inserted
  {
    if !step.Stop? && !step.Receive? && !step.Discard? {
      OthersLeaveRegistry(s, step);
    }
  }

  /** A flight that a step ends puts its child into the registry, kills it, or had lost it to the reaper. */
  lemma EndedFlightIsManaged(s: State, step: Step, w: Who)
    requires Kept(s) && Enabled(s, step) && w in s.flights && Known(s.past.births, s.os, s.flights[w].child)
    ensures Managed(Next(s, step), s.flights[w].child)
  {
    if step.Insert? {
      InsertedIsManaged(s, step.who, w);
    } else {
      StepHandsOver(s, step);
      OnlyInsertionInserts(s, step);
      HandedOverIsManaged(s, Next(s, step), w);
    }
  }

  lemma InsertedIsManaged(s: State, who: Who, w: Who)
    requires who in s.flights && w in s.flights
    ensures Managed(DoInsert(s, who), s.flights[w].child)
  {
    var s' := DoInsert(s, who);
    if w == who {
      assert s'.entries[s.flights[w].config.name].child == s.flights[w].child;
    } else {
      assert w in s'.flights && s'.flights[w] == s.flights[w];
    }
  }

  lemma HandedOverIsManaged(s: State, s': State, w: Who)
    requires w in s.flights && KeepsFlight(s, s', w) && Known(s.past.births, s.os, s.flights[w].child)
    requires s'.past.inserted == s.past.inserted && FlightsUnplaced(s.flights, s.past)
    ensures Managed(s', s.flights[w].child)
  {
  }

  lemma StepKeepsManaged(s: State, step: Step)
    requires Sound(s) && Corresponds(s) && AllManaged(s) && Enabled(s, step) && Disciplined(s, step)
    ensures AllManaged(Next(s, step))
  {
    var s' := Next(s, step);
    StepKeepsEntries(s, step);
    forall c: nat | Known(s'.past.births, s'.os, c) ensures Managed(s', c) {
      StepForgets(s, step, c);
      if Known(s.past.births, s.os, c) {
        KnownStaysManaged(s, step, c);
      } else {
        NewbornIsManaged(s, step);
      }
    }
  }

  lemma StepKeepsEntries(s: State, step: Step)
    requires Sound(s) && Corresponds(s) && Enabled(s, step) && Disciplined(s, step)
    ensures KeepsEntries(s, Next(s, step))
  {
    if step.Stop? || step.Receive? || step.Discard? {
      EntryRemovalKeepsEntries(s, step);
    } else if step.Insert? {
      InsertKeepsEntries(s, step.who);
    } else {
      OthersLeaveRegistry(s, step);
    }
  }

  lemma KnownStaysManaged(s: State, step: Step, c: nat)
    requires Kept(s) && Enabled(s, step) && KeepsEntries(s, Next(s, step))
    requires Known(s.past.births, s.os, c) && Managed(s, c)
    ensures Managed(Next(s, step), c)
  {
    StepHandsOver(s, step);
    if InFlight(s.flights, c) {
      var w :| w in s.flights && s.flights[w].child == c;
      EndedFlightIsManaged(s, step, w);
    } else if n :| n in s.entries && s.entries[n].child == c {
      assert n in s.entries;
    }
  }

  lemma NewbornIsManaged(s: State, step: Step)
    requires Kept(s) && Enabled(s, step) && (step.Start? || step.Refork?)
    requires Known(Next(s, step).past.births, Next(s, step).os, Newborn(s))
    ensures Managed(Next(s, step), Newborn(s))
  {
    ForkHandsOver(s, step);
    OnlyInsertionInserts(s, step);
    forall e | e in s.past.inserted ensures e.child != Newborn(s) {
    }
  }

  /**
   In a disciplined run every child the kernel knows is in an operation in progress,
   is the child of a present entry, is condemned, has been sent SIGKILL, or was leaked
   at its fork: none runs on unmanaged.
   */
  lemma {:induction false} NoChildRunsUnmanaged(steps: seq<Step>, s: State)
    requires Reaches(steps, s) && DisciplinedRun(steps)
    ensures AllManaged(s)
  {
    if steps != [] {
      var n := |steps| - 1;
      var before := Exec(INIT, steps[..n]).value;
      DisciplineKeepsCorrespondence(steps[..n], before);
      NoChildRunsUnmanaged(steps[..n], before);
      StepKeepsManaged(before, steps[n]);
    }
  }
}
