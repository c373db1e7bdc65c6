/**
 `stop` never causes a restart: the kill aborts the monitor before it hits the
 child. So once a reachable monitor is killed, no later step of any run, however
 undisciplined, lets that child ask for a restart; and that is exactly the case.
 */
module StopSafety {
  import opened Wrappers
  import opened Tasks
  import opened Config
  import opened Machine
  import opened Delivery
  import opened Children
  import opened Accounting
  import opened Discipline

  /** Nothing that could ask for a restart on behalf of this child is left, or will come. */
  ghost predicate Muted(s: State, child: nat) {
    && child < Newborn(s)
    && !InFlight(s.flights, child)
    && (forall m :: m in s.runtime.lifecycle.queue ==> m.child != child)
    && (forall id :: Armed(s, id) ==> s.monitors[id].child != child)
    && Unspoken(s, child)
  }

  ghost predicate Unspoken(s: State, child: nat) {
    forall id :: id in s.sending ==> s.sending[id].child != child
  }

  /** Flights only gain newborn children; messages come from flights, monitors from messages, senders from monitors. */
  ghost predicate Descends(s: State, s': State) {
    && Newborn(s) <= Newborn(s')
    && (forall w :: w in s'.flights ==> s'.flights[w].child >= Newborn(s) || InFlight(s.flights, s'.flights[w].child))
    && (forall m :: m in s'.runtime.lifecycle.queue ==>
          m in s.runtime.lifecycle.queue || InFlight(s.flights, m.child))
    && (forall j :: Armed(s', j) ==>
          (Armed(s, j) && s'.monitors[j] == s.monitors[j]) || Announced(s, s'.monitors[j].child))
    && (forall j :: j in s'.sending ==>
          || (j in s.sending && s'.sending[j] == s.sending[j])
          || (Armed(s, j) && s'.sending[j] == s.monitors[j]))
  }

  ghost predicate Announced(s: State, child: nat) {
    exists m :: m in s.runtime.lifecycle.queue && m.child == child
  }

  lemma DescentKeepsMuted(s: State, s': State, child: nat)
    requires Muted(s, child) && Descends(s, s')
    ensures Muted(s', child)
  {
  }

  lemma GiveUpDescends(s: State, who: Who, r: Runtime)
    requires who in s.flights && s.runtime.aborted <= r.aborted && r.lifecycle.queue == s.runtime.lifecycle.queue
    ensures Descends(s, GiveUp(s, who, r))
  {
    var s' := GiveUp(s, who, r);
    assert s'.runtime.lifecycle.queue == s.runtime.lifecycle.queue && s'.monitors == s.monitors;
    forall w | w in s'.flights ensures InFlight(s.flights, s'.flights[w].child) {
      assert s'.flights[w] == s.flights[w];
    }
  }

  lemma AdvanceDescends(s: State, who: Who, stage: Stage, q: Runtime)
    requires who in s.flights && q.aborted == s.runtime.aborted
    requires forall m :: m in q.lifecycle.queue ==>
               m in s.runtime.lifecycle.queue || m.child == s.flights[who].child
    ensures Descends(s, Advance(s, who, stage, q))
  {
    var s' := Advance(s, who, stage, q);
    forall w | w in s'.flights ensures InFlight(s.flights, s'.flights[w].child) {
      assert s'.flights[w].child == s.flights[w].child;
    }
  }

  lemma SubmitDescends(s: State, who: Who, ty: TaskType, sent: bool, stage: Stage)
    requires who in s.flights && Agree(s.runtime.table)
    ensures Descends(s, DoSubmit(s, who, ty, sent, stage))
  {
    var f := s.flights[who];
    PostGrows(s.runtime, ty, f, true);
    PostGrows(s.runtime, ty, f, false);
    GiveUpDescends(s, who, s.runtime);
    GiveUpDescends(s, who, Post(s.runtime, ty, f, false));
    AdvanceDescends(s, who, stage, Post(s.runtime, ty, f, true));
  }

  lemma StartDescends(s: State, config: ProcessConfig, fork: ForkOutcome)
    ensures Descends(s, DoStart(s, config, fork))
  {
    var s' := DoStart(s, config, fork);
    forall w | w in s'.flights
      ensures s'.flights[w].child >= Newborn(s) || InFlight(s.flights, s'.flights[w].child) {
      assert s'.flights[w].child == Newborn(s) || (w in s.flights && s'.flights[w] == s.flights[w]);
    }
  }

  lemma ReforkDescends(s: State, fork: ForkOutcome)
    requires s.handler.Respawning?
    ensures Descends(s, DoRefork(s, fork))
  {
    var s' := DoRefork(s, fork);
    forall w | w in s'.flights
      ensures s'.flights[w].child >= Newborn(s) || InFlight(s.flights, s'.flights[w].child) {
      assert s'.flights[w].child == Newborn(s) || (w in s.flights && s'.flights[w] == s.flights[w]);
    }
  }

  /** Steps that touch neither the message queue nor the senders, and no flight or monitor except by dropping it. */
  lemma QuietDescends(s: State, s': State)
    requires Newborn(s) == Newborn(s') && s.runtime.aborted <= s'.runtime.aborted
    requires forall w :: w in s'.flights ==> w in s.flights && s'.flights[w] == s.flights[w]
    requires s'.runtime.lifecycle.queue == s.runtime.lifecycle.queue
    requires forall j :: j in s'.monitors ==> j in s.monitors && s'.monitors[j] == s.monitors[j]
    requires forall j :: j in s'.sending ==> j in s.sending && s'.sending[j] == s.sending[j]
    ensures Descends(s, s')
  {
  }

  lemma ReapDescends(s: State, id: TaskId)
    requires Armed(s, id)
    ensures Descends(s, DoReap(s, id))
  {
  }

  lemma RecvDescends(s: State, ty: TaskType)
    requires Enabled(s, Recv(ty))
    ensures Descends(s, DoRecv(s, ty))
  {
    var s' := DoRecv(s, ty);
    if ty == Process {
      var m := s.runtime.lifecycle.queue[0];
      assert m in s.runtime.lifecycle.queue;
      assert Announced(s, m.child);
    }
  }

  lemma AttachDescends(s: State, ty: TaskType)
    requires Delivered(s.runtime) && Enabled(s, Attach(ty))
    ensures Descends(s, s.(runtime := Attached(s.runtime, ty)))
  {
    AttachGrows(s.runtime, ty);
    QuietDescends(s, s.(runtime := Attached(s.runtime, ty)));
  }

  lemma SubmitLogDescends(s: State, who: Who, sent: bool)
    requires Agree(s.runtime.table) && who in s.flights
    ensures Descends(s, DoSubmitLog(s, who, sent))
  {
    PostGrows(s.runtime, Logging, s.flights[who], sent);
    AdvanceDescends(s, who, Logged, Post(s.runtime, Logging, s.flights[who], sent));
  }

  lemma EndDescends(s: State, who: Who)
    requires who in s.flights
    ensures Descends(s, DoAbandon(s, who)) && Descends(s, DoInsert(s, who))
  {
    QuietDescends(s, DoAbandon(s, who));
    QuietDescends(s, DoInsert(s, who));
  }

  lemma StopDescends(s: State, name: string)
    ensures Descends(s, DoStop(s, name))
  {
    QuietDescends(s, DoStop(s, name));
  }

  lemma ReceiveDescends(s: State)
    requires s.restarts != []
    ensures Descends(s, DoReceive(s))
  {
    QuietDescends(s, DoReceive(s));
  }

  lemma FinishDescends(s: State, child: nat)
    requires child in s.condemned
    ensures Descends(s, DoFinish(s, child))
  {
    QuietDescends(s, DoFinish(s, child));
  }

  lemma OtherDescends(s: State, step: Step)
    requires Enabled(s, step)
    requires step.Discard? || step.Send? || step.MonitorFails? || step.TaskFails? || step.Exit?
    ensures Descends(s, Next(s, step))
  {
    QuietDescends(s, Next(s, step));
  }

  lemma FlightDescends(s: State, step: Step)
    requires Agree(s.runtime.table) && Enabled(s, step)
    requires step.Start? || step.Refork? || step.SubmitLog? || step.SubmitMonitor? || step.SubmitMetrics?
    ensures Descends(s, Next(s, step))
  {
    match step
    case Start(config, fork) => StartDescends(s, config, fork);
    case Refork(fork) => ReforkDescends(s, fork);
    case SubmitLog(who, sent) => SubmitLogDescends(s, who, sent);
    case SubmitMonitor(who, sent) => SubmitDescends(s, who, Process, sent, Monitored);
    case SubmitMetrics(who, sent) => SubmitDescends(s, who, Metrics, sent, Measured);
  }

  lemma StepDescends(s: State, step: Step)
    requires Delivered(s.runtime) && Enabled(s, step)
    ensures Descends(s, Next(s, step))
  {
    if step.Start? || step.Refork? || step.SubmitLog? || step.SubmitMonitor? || step.SubmitMetrics? {
      FlightDescends(s, step);
    } else {
      match step
      case Abandon(who) => EndDescends(s, who);
      case Insert(who) => EndDescends(s, who);
      case Stop(name) => StopDescends(s, name);
      case Receive => ReceiveDescends(s);
      case Finish(child) => FinishDescends(s, child);
      case Recv(ty) => RecvDescends(s, ty);
      case Attach(ty) => AttachDescends(s, ty);
      case Reap(id) => ReapDescends(s, id);
      case _ => OtherDescends(s, step);
    }
  }

  lemma {:induction false} MutedForGood(s: State, child: nat, more: seq<Step>, t: State)
    requires Sound(s) && Muted(s, child) && Exec(s, more) == Some(t)
    ensures Sound(t) && Muted(t, child)
  {
    if more != [] {
      var n := |more| - 1;
      var before := Exec(s, more[..n]).value;
      MutedForGood(s, child, more[..n], before);
      StepKeepsSound(before, more[n]);
      StepDescends(before, more[n]);
      DescentKeepsMuted(before, t, child);
    }
  }

  /** Nothing of an unreachable child is muted: its message still waits, or its monitor is armed. */
  lemma UnreachableIsNotMuted(s: State, child: nat)
    requires Delivered(s.runtime) && MonitorsReceived(s.runtime, s.monitors)
    requires child in s.condemned && !Reachable(s, child)
    ensures !Muted(DoFinish(s, child), child)
  {
    var s' := DoFinish(s, child);
    if id :| id in s.monitors && s.monitors[id].child == child && s.runtime.lifecycle.held == Some(id) {
      HeldIsNotAborted(s.runtime, id, s.condemned[child]);
      assert Armed(s', id);
    }
  }

  lemma ApartIsNotInFlight(s: State, child: nat)
    requires Apart(s.past, s.condemned, s.flights, s.entries) && child in s.condemned
    ensures child < Newborn(s) && !InFlight(s.flights, child)
  {
  }

  lemma ReachableIsMuted(s: State, child: nat)
    requires Delivered(s.runtime) && Sources(s) && Apart(s.past, s.condemned, s.flights, s.entries)
    requires child in s.condemned && Reachable(s, child) && Unspoken(s, child)
    ensures Muted(DoFinish(s, child), child)
  {
    ApartIsNotInFlight(s, child);
    ReachableIsSilenced(s, child);
  }

  /**
   In every reachable state, whatever led to it, killing a condemned child mutes it
   exactly if its monitor was received, is registered, and has not reaped the child.
   */
  lemma KillMutesIffReachable(steps: seq<Step>, s: State, child: nat)
    requires Reaches(steps, s) && child in s.condemned
    ensures Muted(DoFinish(s, child), child) <==> Reachable(s, child) && Unspoken(s, child)
  {
    AlwaysSound(steps, s);
    if !Reachable(s, child) {
      UnreachableIsNotMuted(s, child);
    } else if Unspoken(s, child) {
      ReachableIsMuted(s, child);
    }
  }

  /**
   `stop` removes an entry; any steps follow; then it kills the child, which is
   reachable and not reaped by then. In no continuation of the run can a monitor of
   that child reap it or send a request.
   */
  lemma StopNeverCausesARestart(steps: seq<Step>, s: State, name: string, window: seq<Step>, m: State,
                                more: seq<Step>, t: State)
    requires Reaches(steps, s) && name in s.entries && Exec(DoStop(s, name), window) == Some(m)
    requires var child := s.entries[name].child;
             child in m.condemned && Reachable(m, child) && Unspoken(m, child)
             && Exec(DoFinish(m, child), more) == Some(t)
    ensures var child := s.entries[name].child;
            && (forall j :: Enabled(t, Reap(j)) ==> t.monitors[j].child != child)
            && (forall j :: Enabled(t, Send(j)) ==> t.sending[j].child != child)
  {
    var child := s.entries[name].child;
    Then(INIT, steps, s, Stop(name));
    ExecConcat(INIT, steps + [Stop(name)], DoStop(s, name), window);
    KilledStaysMuted(steps + [Stop(name)] + window, m, child, more, t);
    MutedCannotSpeak(t, child);
  }

  lemma KilledStaysMuted(steps: seq<Step>, m: State, child: nat, more: seq<Step>, t: State)
    requires Reaches(steps, m) && child in m.condemned && Reachable(m, child) && Unspoken(m, child)
    requires Exec(DoFinish(m, child), more) == Some(t)
    ensures Muted(t, child)
  {
    assert Muted(DoFinish(m, child), child) by { KillMutesIffReachable(steps, m, child); }
    assert Sound(DoFinish(m, child)) by {
      AlwaysSound(steps, m);
      StepKeepsSound(m, Finish(child));
    }
    MutedForGood(DoFinish(m, child), child, more, t);
  }

  lemma MutedCannotSpeak(t: State, child: nat)
    requires Muted(t, child)
    ensures forall j :: Enabled(t, Reap(j)) ==> t.monitors[j].child != child
    ensures forall j :: Enabled(t, Send(j)) ==> t.sending[j].child != child
  {
  }

  /** Requests come from sending monitors only: every other step at most takes some away. */
  lemma OnlyMonitorsRequest(s: State, step: Step)
    requires Enabled(s, step)
    ensures var s' := Next(s, step);
            if step.Send? && !s.handler.Gone? then s'.restarts == s.restarts + [s.sending[step.id].name]
            else s'.restarts == s.restarts || s'.restarts == [] || (step.Receive? && s'.restarts == s.restarts[1..])
  {
    match step
    case Start(config, fork) => StartRequestsNothing(s, config, fork);
    case Refork(fork) => ReforkRequestsNothing(s, fork);
    case SubmitMonitor(who, sent) => SubmitRequestsNothing(s, who, Process, sent, Monitored);
    case SubmitMetrics(who, sent) => SubmitRequestsNothing(s, who, Metrics, sent, Measured);
    case _ =>
  }

  lemma StartRequestsNothing(s: State, config: ProcessConfig, fork: ForkOutcome)
    ensures DoStart(s, config, fork).restarts == s.restarts
  {
  }

  lemma ReforkRequestsNothing(s: State, fork: ForkOutcome)
    requires s.handler.Respawning?
    ensures var s' := DoRefork(s, fork); s'.restarts == s.restarts || s'.restarts == []
  {
  }

  lemma SubmitRequestsNothing(s: State, who: Who, ty: TaskType, sent: bool, stage: Stage)
    requires who in s.flights
    ensures var s' := DoSubmit(s, who, ty, sent, stage); s'.restarts == s.restarts || s'.restarts == []
  {
    GiveUpRequestsNothing(s, who, s.runtime);
    GiveUpRequestsNothing(s, who, Post(s.runtime, ty, s.flights[who], false));
  }

  lemma GiveUpRequestsNothing(s: State, who: Who, r: Runtime)
    requires who in s.flights
    ensures var s' := GiveUp(s, who, r); s'.restarts == s.restarts || s'.restarts == []
  {
  }
}
