/**
 Requests and entries. The supervisor checks a name when `start` begins and
 inserts it only at the end; `stop` first removes an entry and only then aborts
 its monitor, which it can do only once the monitor's handle is registered; and a
 monitor reaps its child before it sends its request. So the promise "every
 restart request finds its entry, and never one that is still alive" needs a
 discipline on when steps are taken. The discipline is stated here step by step
 and shown to be exactly what the promise needs: a run keeps requests and entries
 in correspondence if and only if it is disciplined.
 */
module Discipline {
  import opened Wrappers
  import opened Tasks
  import opened Config
  import opened Machine
  import opened Delivery
  import opened Admission
  import opened Children
  import opened Accounting

  /** The handler has taken the entry of `name` and is not done with it. */
  predicate Busy(handler: Handler, name: string) {
    match handler
    case Discarding(n) => n == name
    case Respawning(config, _) => config.name == name
    case _ => false
  }

  ghost predicate Starting(flights: map<Who, Flight>, name: string) {
    exists w :: w in flights && w.Client? && flights[w].config.name == name
  }

  ghost predicate Placed(flights: map<Who, Flight>, name: string) {
    exists w :: w in flights && flights[w].config.name == name
  }

  /** A monitor has reaped a process of this name and not sent its request yet. */
  ghost predicate Speaking(sending: map<TaskId, Monitor>, name: string) {
    exists id :: id in sending && sending[id].name == name
  }

  ghost predicate Requested(s: State, name: string) {
    name in s.restarts || Speaking(s.sending, name)
  }

  /** Killing the tasks of this child now silences it: its message was received, its monitor's handle registered. */
  ghost predicate Reachable(s: State, child: nat) {
    && (forall m :: m in s.runtime.lifecycle.queue ==> m.child != child)
    && (forall id :: id in s.monitors && s.monitors[id].child == child ==> s.runtime.lifecycle.held != Some(id))
  }

  /**
   The discipline: one operation in progress per name; `stop`, and giving up after
   the monitor was submitted, only while no request of that name is on its way; a
   condemned child is not reaped before it is killed, and killed only when the kill
   reaches its monitor; and the handler takes a request only when no `start` of that
   name is between its fork and its insertion.
   */
  ghost predicate Disciplined(s: State, step: Step) {
    match step
    case Start(config, fork) =>
      config.name !in s.entries && fork.Forked? ==> NameIsFree(s, config.name)
    case Stop(name) => name in s.entries ==> !Requested(s, name)
    case Finish(child) => Reachable(s, child)
    case SubmitMetrics(who, sent) => sent || (who in s.flights ==> MayGiveUp(s, who))
    case Reap(id) => id in s.monitors ==> s.monitors[id].child !in s.condemned
    case Receive => s.restarts != [] ==> !Starting(s.flights, s.restarts[0])
    case _ => true
  }

  /** A handler that gives up takes the queued requests with it; those not yet sent remain. */
  ghost predicate MayGiveUp(s: State, who: Who)
    requires who in s.flights
  {
    var name := s.flights[who].config.name;
    !Speaking(s.sending, name) && (who.Client? ==> name !in s.restarts)
  }

  ghost predicate DisciplinedFrom(s: State, steps: seq<Step>) {
    steps != [] ==>
      var n := |steps| - 1;
      && DisciplinedFrom(s, steps[..n])
      && (Exec(s, steps[..n]).Some? ==> Disciplined(Exec(s, steps[..n]).value, steps[n]))
  }

  ghost predicate DisciplinedRun(steps: seq<Step>) {
    DisciplinedFrom(INIT, steps)
  }

  lemma DisciplinedThen(s: State, steps: seq<Step>, t: State, step: Step)
    requires DisciplinedFrom(s, steps) && Exec(s, steps) == Some(t) && Disciplined(t, step)
    ensures DisciplinedFrom(s, steps + [step])
  {
    assert (steps + [step])[..|steps|] == steps;
  }

  lemma {:induction false} DisciplinedConcat(s: State, a: seq<Step>, m: State, b: seq<Step>)
    requires DisciplinedFrom(s, a) && Exec(s, a) == Some(m) && DisciplinedFrom(m, b)
    ensures DisciplinedFrom(s, a + b)
  {
    if b == [] {
      assert a + b == a;
    } else {
      var n := |b| - 1;
      DisciplinedConcat(s, a, m, b[..n]);
      ExecConcat(s, a, m, b[..n]);
      assert (a + b)[..|a + b| - 1] == a + b[..n];
    }
  }

  /** Steps without a condition. */
  predicate Unconditional(step: Step) {
    && !step.Start? && !step.Stop? && !step.Finish? && !step.Reap? && !step.Receive?
    && (step.SubmitMetrics? ==> step.sent)
  }

  predicate AllUnconditional(steps: seq<Step>) {
    forall k :: 0 <= k < |steps| ==> Unconditional(steps[k])
  }

  lemma {:induction false} UnconditionalIsDisciplined(s: State, steps: seq<Step>)
    requires AllUnconditional(steps)
    ensures DisciplinedFrom(s, steps)
  {
    if steps != [] {
      UnconditionalIsDisciplined(s, steps[..|steps| - 1]);
    }
  }

  lemma HeadThenUnconditional(s: State, step: Step, more: seq<Step>)
    requires Enabled(s, step) && Disciplined(s, step) && AllUnconditional(more)
    ensures DisciplinedFrom(s, [step] + more)
  {
    ExecOne(s, step);
    assert DisciplinedFrom(s, []);
    DisciplinedThen(s, [], s, step);
    assert [] + [step] == [step];
    UnconditionalIsDisciplined(Next(s, step), more);
    DisciplinedConcat(s, [step], Next(s, step), more);
  }

  // ----- the correspondence -----

  ghost predicate NamesUnique(entries: map<string, Entry>, flights: map<Who, Flight>, handler: Handler) {
    && (forall w :: w in flights ==> flights[w].config.name !in entries && !Busy(handler, flights[w].config.name))
    && (forall w, v | w in flights && v in flights :: flights[w].config.name == flights[v].config.name ==> w == v)
    && (forall n :: n in entries ==> !Busy(handler, n))
  }

  /** The child is the present incarnation of `name`: its entry, or the one its monitored flight will insert. */
  ghost predicate Carried(entries: map<string, Entry>, flights: map<Who, Flight>, name: string, child: nat) {
    || (name in entries && entries[name].child == child)
    || (exists w :: w in flights && Watched(flights[w])
                    && flights[w].config.name == name && flights[w].child == child)
  }

  ghost predicate RequestCarried(s: State, name: string) {
    exists c: nat ::
      c < |s.past.births| && Carried(s.entries, s.flights, name, c) && !Known(s.past.births, s.os, c)
  }

  ghost predicate QueueCarried(s: State) {
    forall m :: m in s.runtime.lifecycle.queue ==>
      Carried(s.entries, s.flights, m.name, m.child) || m.child in s.condemned
  }

  ghost predicate MonitorsCarried(s: State) {
    forall id :: Armed(s, id) ==>
      Carried(s.entries, s.flights, s.monitors[id].name, s.monitors[id].child) || s.monitors[id].child in s.condemned
  }

  ghost predicate SendersCarried(s: State) {
    forall id :: id in s.sending ==> Carried(s.entries, s.flights, s.sending[id].name, s.sending[id].child)
  }

  /** No name has two requests, queued or about to be sent. */
  ghost predicate RequestsDistinct(s: State) {
    && NoDuplicates(s.restarts)
    && (forall id :: id in s.sending ==> s.sending[id].name !in s.restarts)
    && (forall i, j | i in s.sending && j in s.sending :: s.sending[i].name == s.sending[j].name ==> i == j)
  }

  ghost predicate RequestsCarried(s: State) {
    forall n :: n in s.restarts ==> RequestCarried(s, n)
  }

  /**
   Every message, armed monitor and request belongs to the present incarnation of
   its name; only the monitor of a condemned child may outlive its entry, until the
   kill. There is at most one request and one operation per name, a request is for a
   reaped child, and the handler has not panicked.
   */
  ghost predicate Corresponds(s: State) {
    && NamesUnique(s.entries, s.flights, s.handler)
    && QueueCarried(s) && MonitorsCarried(s) && SendersCarried(s) && RequestsCarried(s) && RequestsDistinct(s)
    && s.handler != Gone(true)
  }

  lemma CarrierIsUnique(s: State, name: string, c: nat, d: nat)
    requires NamesUnique(s.entries, s.flights, s.handler)
    requires Carried(s.entries, s.flights, name, c) && Carried(s.entries, s.flights, name, d)
    ensures c == d
  {
  }

  lemma CarrierHasTheName(s: State, name: string, c: nat)
    requires Records(s) && EntriesInserted(s.entries, s.past.inserted)
    requires Carried(s.entries, s.flights, name, c)
    ensures c < |s.past.births| && s.past.births[c].config.name == name
  {
    if name in s.entries && s.entries[name].child == c {
      var e := s.entries[name];
      assert Recorded(s.past.births, e.child, Birth(e.pid, e.config, e.root));
    } else {
      var w :| w in s.flights && s.flights[w].config.name == name && s.flights[w].child == c;
      var f := s.flights[w];
      assert Recorded(s.past.births, f.child, Birth(f.pid, f.config, f.root));
    }
  }

  // ----- steps that keep every carrier -----

  ghost predicate KeepsCarriers(s: State, s': State) {
    && (forall n, c: nat :: Carried(s.entries, s.flights, n, c) ==> Carried(s'.entries, s'.flights, n, c))
    && (forall c :: c in s.condemned ==> c in s'.condemned)
  }

  /** No message is added, no monitor armed, and none has reaped. */
  ghost predicate AddsNoSource(s: State, s': State) {
    && (forall m :: m in s'.runtime.lifecycle.queue ==> m in s.runtime.lifecycle.queue)
    && (forall id :: Armed(s', id) ==> Armed(s, id) && s'.monitors[id] == s.monitors[id])
    && (forall id :: id in s'.sending ==> id in s.sending && s'.sending[id] == s.sending[id])
  }

  /** No request is queued, and no child becomes known again. */
  ghost predicate AddsNoRequest(s: State, s': State) {
    && (s'.restarts == s.restarts || s'.restarts == [])
    && |s.past.births| <= |s'.past.births|
    && (forall c: nat :: c < |s.past.births| && Known(s'.past.births, s'.os, c) ==> Known(s.past.births, s.os, c))
  }

  ghost predicate KeepsOtherCarriers(s: State, s': State, child: nat) {
    && (forall n, c: nat ::
          Carried(s.entries, s.flights, n, c) && c != child ==> Carried(s'.entries, s'.flights, n, c))
    && (forall c :: c in s.condemned && c != child ==> c in s'.condemned)
  }

  /** Nothing of the child is heard any more, except perhaps its monitor until the kill. */
  ghost predicate Quiet(s: State, child: nat) {
    && (forall id :: id in s.sending ==> s.sending[id].child != child)
    && (child in s.condemned
        || ((forall m :: m in s.runtime.lifecycle.queue ==> m.child != child)
            && (forall id :: Armed(s, id) ==> s.monitors[id].child != child)))
  }

  lemma ReleaseKeepsSources(s: State, s': State, child: nat)
    requires QueueCarried(s) && MonitorsCarried(s) && SendersCarried(s)
    requires KeepsOtherCarriers(s, s', child) && AddsNoSource(s, s') && Quiet(s', child)
    ensures QueueCarried(s') && MonitorsCarried(s') && SendersCarried(s')
  {
  }

  lemma ReleaseKeepsRequests(s: State, s': State, name: string, child: nat)
    requires RequestsCarried(s) && KeepsOtherCarriers(s, s', child) && AddsNoRequest(s, s')
    requires (forall n :: Carried(s.entries, s.flights, n, child) ==> n == name) && name !in s'.restarts
    ensures RequestsCarried(s')
  {
    forall n | n in s'.restarts ensures RequestCarried(s', n) {
      assert RequestCarried(s, n);
      var c: nat :| c < |s.past.births| && Carried(s.entries, s.flights, n, c) && !Known(s.past.births, s.os, c);
      assert Carried(s'.entries, s'.flights, n, c);
    }
  }

  lemma FewerRequestsStayDistinct(s: State, s': State)
    requires RequestsDistinct(s) && AddsNoSource(s, s') && AddsNoRequest(s, s')
    ensures RequestsDistinct(s')
  {
  }

  /** A quiet child of a name without requests may lose its entry or its flight. */
  lemma ReleaseKeepsCorresponds(s: State, s': State, name: string, child: nat)
    requires Corresponds(s) && s'.handler != Gone(true) && NamesUnique(s'.entries, s'.flights, s'.handler)
    requires KeepsOtherCarriers(s, s', child) && AddsNoSource(s, s') && AddsNoRequest(s, s')
    requires (forall n :: Carried(s.entries, s.flights, n, child) ==> n == name) && name !in s'.restarts
    requires Quiet(s', child)
    ensures Corresponds(s')
  {
    ReleaseKeepsSources(s, s', child);
    ReleaseKeepsRequests(s, s', name, child);
    FewerRequestsStayDistinct(s, s');
  }

  /** A step that keeps every carrier, every condemned child and adds nothing. */
  lemma FrameKeepsCorresponds(s: State, s': State)
    requires Corresponds(s) && s'.handler != Gone(true) && NamesUnique(s'.entries, s'.flights, s'.handler)
    requires KeepsCarriers(s, s') && AddsNoSource(s, s') && AddsNoRequest(s, s')
    ensures Corresponds(s')
  {
    FrameKeepsSources(s, s');
    FrameKeepsRequests(s, s');
    FewerRequestsStayDistinct(s, s');
  }

  lemma FrameKeepsSources(s: State, s': State)
    requires QueueCarried(s) && MonitorsCarried(s) && SendersCarried(s)
    requires KeepsCarriers(s, s') && AddsNoSource(s, s')
    ensures QueueCarried(s') && MonitorsCarried(s') && SendersCarried(s')
  {
  }

  lemma FrameKeepsRequests(s: State, s': State)
    requires RequestsCarried(s) && KeepsCarriers(s, s') && AddsNoRequest(s, s')
    ensures RequestsCarried(s')
  {
    forall n | n in s'.restarts ensures RequestCarried(s', n) {
      assert RequestCarried(s, n);
      var c: nat :| c < |s.past.births| && Carried(s.entries, s.flights, n, c) && !Known(s.past.births, s.os, c);
      assert Carried(s'.entries, s'.flights, n, c);
    }
  }

  ghost predicate KeepsWatched(flights: map<Who, Flight>, flights': map<Who, Flight>) {
    forall w :: w in flights && Watched(flights[w]) ==> w in flights' && SameChild(flights[w], flights'[w])
  }

  lemma KeepsWatchedCarriers(s: State, s': State)
    requires s'.entries == s.entries && KeepsWatched(s.flights, s'.flights)
    requires forall c :: c in s.condemned ==> c in s'.condemned
    ensures KeepsCarriers(s, s')
  {
    forall n, c: nat | Carried(s.entries, s.flights, n, c) ensures Carried(s'.entries, s'.flights, n, c) {
      if !(n in s.entries && s.entries[n].child == c) {
        var w :| w in s.flights && Watched(s.flights[w])
                 && s.flights[w].config.name == n && s.flights[w].child == c;
        assert SameChild(s.flights[w], s'.flights[w]);
      }
    }
  }

  // ----- forking -----

  lemma StartAddsNoSource(s: State, config: ProcessConfig, fork: ForkOutcome)
    ensures AddsNoSource(s, DoStart(s, config, fork))
  {
  }

  lemma StartAddsNoRequest(s: State, config: ProcessConfig, fork: ForkOutcome)
    ensures AddsNoRequest(s, DoStart(s, config, fork))
  {
    var s' := DoStart(s, config, fork);
    forall c: nat | c < |s.past.births| && Known(s'.past.births, s'.os, c) ensures Known(s.past.births, s.os, c) {
      StartForgets(s, config, fork, c);
    }
  }

  lemma ReforkAddsNothing(s: State, fork: ForkOutcome)
    requires s.handler.Respawning?
    ensures AddsNoSource(s, DoRefork(s, fork)) && AddsNoRequest(s, DoRefork(s, fork))
  {
    var s' := DoRefork(s, fork);
    forall c: nat | c < |s.past.births| && Known(s'.past.births, s'.os, c) ensures Known(s.past.births, s.os, c) {
      ReforkForgets(s, fork, c);
    }
  }

  lemma NewNameStaysUnique(s: State, who: Who, f: Flight, handler: Handler)
    requires NamesUnique(s.entries, s.flights, s.handler) && who !in s.flights
    requires f.config.name !in s.entries && !Placed(s.flights, f.config.name) && !Busy(handler, f.config.name)
    requires handler == s.handler || handler == Placing
    ensures NamesUnique(s.entries, s.flights[who := f], handler)
  {
  }

  ghost predicate NameIsFree(s: State, name: string) {
    !Placed(s.flights, name) && !Busy(s.handler, name)
  }

  lemma StartKeepsCorresponds(s: State, config: ProcessConfig, fork: ForkOutcome)
    requires Corresponds(s) && Client(Newborn(s)) !in s.flights
    requires config.name !in s.entries && fork.Forked? ==> NameIsFree(s, config.name)
    ensures Corresponds(DoStart(s, config, fork))
  {
    var s' := DoStart(s, config, fork);
    assert NamesUnique(s'.entries, s'.flights, s'.handler) && s'.handler == s.handler by {
      if config.name !in s.entries && fork.Forked? {
        NewNameStaysUnique(s, Client(Newborn(s)), s'.flights[Client(Newborn(s))], s.handler);
      }
    }
    assert KeepsCarriers(s, s') by { KeepsWatchedCarriers(s, s'); }
    StartAddsNoSource(s, config, fork);
    StartAddsNoRequest(s, config, fork);
    FrameKeepsCorresponds(s, s');
  }

  /** Two operations on one name are in progress at once. */
  lemma TakenNameBreaks(s: State, who: Who, f: Flight)
    requires who !in s.flights && !NameIsFree(s, f.config.name)
    ensures !NamesUnique(s.entries, s.flights[who := f], s.handler)
  {
    var flights := s.flights[who := f];
    assert who in flights && flights[who].config.name == f.config.name;
    if Placed(s.flights, f.config.name) {
      var w :| w in s.flights && s.flights[w].config.name == f.config.name;
      assert w in flights && w != who && flights[w].config.name == flights[who].config.name;
    } else {
      assert Busy(s.handler, flights[who].config.name);
    }
  }

  lemma StartIsExact(s: State, config: ProcessConfig, fork: ForkOutcome)
    requires Records(s) && Holders(s) && Corresponds(s)
    ensures Corresponds(DoStart(s, config, fork)) <==>
            (config.name !in s.entries && fork.Forked? ==> NameIsFree(s, config.name))
  {
    ClientIsFresh(s);
    if config.name !in s.entries && fork.Forked? && !NameIsFree(s, config.name) {
      TakenNameBreaks(s, Client(Newborn(s)), DoStart(s, config, fork).flights[Client(Newborn(s))]);
    } else {
      StartKeepsCorresponds(s, config, fork);
    }
  }

  lemma BusyNameIsFree(s: State, name: string)
    requires NamesUnique(s.entries, s.flights, s.handler) && Busy(s.handler, name)
    ensures name !in s.entries && !Placed(s.flights, name)
  {
  }

  lemma ReforkKeepsCorresponds(s: State, fork: ForkOutcome)
    requires Corresponds(s) && Restarter !in s.flights && Enabled(s, Refork(fork))
    ensures Corresponds(DoRefork(s, fork))
  {
    var s' := DoRefork(s, fork);
    ReforkAddsNothing(s, fork);
    BusyNameIsFree(s, s.handler.config.name);
    if fork.Forked? {
      NewNameStaysUnique(s, Restarter, s'.flights[Restarter], Placing);
    }
    KeepsWatchedCarriers(s, s');
    FrameKeepsCorresponds(s, s');
  }

  // ----- giving up -----

  lemma DropKeepsNames(s: State, who: Who)
    requires NamesUnique(s.entries, s.flights, s.handler)
    ensures var s' := Drop(s, who); NamesUnique(s'.entries, s'.flights, s'.handler)
  {
  }

  lemma EarlyDropKeepsCorresponds(s: State, who: Who)
    requires Corresponds(s) && who in s.flights && !Watched(s.flights[who])
    ensures Corresponds(Drop(s, who))
  {
    var s' := Drop(s, who);
    KeepsWatchedCarriers(s, s');
    DropKeepsNames(s, who);
    FrameKeepsCorresponds(s, s');
  }

  /** What else a failed submission changes: the runtime, up to its messages and aborted handles, and the condemned. */
  lemma CondemningKeepsCorresponds(s: State, q: Runtime, child: nat, pid: Pid)
    requires Corresponds(s) && q.lifecycle.queue == s.runtime.lifecycle.queue && q.aborted == s.runtime.aborted
    ensures Corresponds(s.(runtime := q, condemned := s.condemned[child := pid]))
  {
    FrameKeepsCorresponds(s, s.(runtime := q, condemned := s.condemned[child := pid]));
  }

  lemma EarlyGiveUpKeepsCorresponds(s: State, who: Who, q: Runtime)
    requires Corresponds(s) && who in s.flights && !Watched(s.flights[who])
    requires q.lifecycle.queue == s.runtime.lifecycle.queue && q.aborted == s.runtime.aborted
    ensures Corresponds(GiveUp(s, who, q))
  {
    var f := s.flights[who];
    CondemningKeepsCorresponds(s, q, f.child, f.pid);
    EarlyDropKeepsCorresponds(s.(runtime := q, condemned := s.condemned[f.child := f.pid]), who);
  }

  lemma OnlyItsNameCarries(s: State, name: string, child: nat)
    requires Records(s) && EntriesInserted(s.entries, s.past.inserted)
    requires child < |s.past.births| && s.past.births[child].config.name == name
    ensures forall n :: Carried(s.entries, s.flights, n, child) ==> n == name
  {
    forall n | Carried(s.entries, s.flights, n, child) ensures n == name {
      CarrierHasTheName(s, n, child);
    }
  }

  /** A child of this name speaks only under this name. */
  lemma SilentNameSilentChild(s: State, name: string, child: nat)
    requires SendersReaped(s.past.births, s.os, s.sending) && !Speaking(s.sending, name)
    requires child < |s.past.births| && s.past.births[child].config.name == name
    ensures forall id :: id in s.sending ==> s.sending[id].child != child
  {
    forall id | id in s.sending ensures s.sending[id].child != child {
      assert Spoke(s.past.births, s.os, s.sending[id]);
    }
  }

  lemma DropKeepsOtherCarriers(s: State, s': State, who: Who)
    requires who in s.flights && s'.entries == s.entries && s'.flights == s.flights - {who}
    requires forall c :: c in s.condemned ==> c in s'.condemned
    ensures KeepsOtherCarriers(s, s', s.flights[who].child)
  {
    forall n, c: nat | Carried(s.entries, s.flights, n, c) && c != s.flights[who].child
      ensures Carried(s'.entries, s'.flights, n, c) {
      if !(n in s.entries && s.entries[n].child == c) {
        var w :| w in s.flights && Watched(s.flights[w])
                 && s.flights[w].config.name == n && s.flights[w].child == c;
        assert w in s'.flights && s'.flights[w] == s.flights[w];
      }
    }
  }

  lemma LateGiveUpKeepsCorresponds(s: State, who: Who, q: Runtime)
    requires Records(s) && SendersReaped(s.past.births, s.os, s.sending)
    requires EntriesInserted(s.entries, s.past.inserted) && Corresponds(s)
    requires who in s.flights && MayGiveUp(s, who)
    requires q.lifecycle.queue == s.runtime.lifecycle.queue && q.aborted == s.runtime.aborted
    ensures Corresponds(GiveUp(s, who, q))
  {
    var f := s.flights[who];
    assert Recorded(s.past.births, f.child, Birth(f.pid, f.config, f.root));
    OnlyItsNameCarries(s, f.config.name, f.child);
    SilentNameSilentChild(s, f.config.name, f.child);
    SilentGiveUpKeepsCorresponds(s, who, q);
  }

  lemma SilentGiveUpKeepsCorresponds(s: State, who: Who, q: Runtime)
    requires Corresponds(s) && who in s.flights && MayGiveUp(s, who)
    requires forall n :: Carried(s.entries, s.flights, n, s.flights[who].child) ==> n == s.flights[who].config.name
    requires forall id :: id in s.sending ==> s.sending[id].child != s.flights[who].child
    requires q.lifecycle.queue == s.runtime.lifecycle.queue && q.aborted == s.runtime.aborted
    ensures Corresponds(GiveUp(s, who, q))
  {
    var f, s' := s.flights[who], GiveUp(s, who, q);
    DropKeepsNames(s, who);
    DropKeepsOtherCarriers(s, s', who);
    ReleaseKeepsCorresponds(s, s', f.config.name, f.child);
  }

  /** Nobody else carries the name of a flight. */
  lemma DroppedNameIsUncarried(s: State, who: Who, c: nat)
    requires NamesUnique(s.entries, s.flights, s.handler) && who in s.flights
    ensures !Carried(s.entries, s.flights - {who}, s.flights[who].config.name, c)
  {
  }

  lemma RequestedGiveUpBreaks(s: State, who: Who, q: Runtime)
    requires NamesUnique(s.entries, s.flights, s.handler) && who in s.flights && !MayGiveUp(s, who)
    ensures !Corresponds(GiveUp(s, who, q))
  {
    var name, s' := s.flights[who].config.name, GiveUp(s, who, q);
    forall c: nat ensures !Carried(s'.entries, s'.flights, name, c) {
      DroppedNameIsUncarried(s, who, c);
    }
    UncarriedMustBeSilent(s', name);
  }

  /** A request for a name nobody carries contradicts the correspondence. */
  lemma UncarriedMustBeSilent(s: State, name: string)
    requires forall c: nat :: !Carried(s.entries, s.flights, name, c)
    ensures Requested(s, name) ==> !Corresponds(s)
  {
    if Corresponds(s) {
      forall n | n in s.restarts ensures n != name {
        assert RequestCarried(s, n);
      }
    }
  }

  // ----- advancing -----

  lemma AdvanceKeepsNames(s: State, who: Who, stage: Stage, q: Runtime)
    requires NamesUnique(s.entries, s.flights, s.handler) && who in s.flights
    requires Watched(s.flights[who]) ==> stage == Measured
    ensures NamesUnique(s.entries, Advance(s, who, stage, q).flights, s.handler)
    ensures KeepsWatched(s.flights, Advance(s, who, stage, q).flights)
  {
  }

  lemma AdvanceKeepsCorresponds(s: State, who: Who, stage: Stage, q: Runtime)
    requires Corresponds(s) && who in s.flights && (Watched(s.flights[who]) ==> stage == Measured)
    requires q.lifecycle.queue == s.runtime.lifecycle.queue && s.runtime.aborted == q.aborted
    ensures Corresponds(Advance(s, who, stage, q))
  {
    var s' := Advance(s, who, stage, q);
    AdvanceKeepsNames(s, who, stage, q);
    KeepsWatchedCarriers(s, s');
    FrameKeepsCorresponds(s, s');
  }

  /** The flight of the message just sent carries its child from now on. */
  lemma MonitoredKeepsCorresponds(s: State, who: Who, q: Runtime, sent: Message)
    requires Corresponds(s) && At(s, who, Logged)
    requires sent.name == s.flights[who].config.name && sent.child == s.flights[who].child
    requires q.lifecycle.queue == s.runtime.lifecycle.queue + [sent] && s.runtime.aborted == q.aborted
    ensures Corresponds(Advance(s, who, Monitored, q))
  {
    var mid := Advance(s, who, Monitored, q.(lifecycle := s.runtime.lifecycle));
    AdvanceKeepsCorresponds(s, who, Monitored, q.(lifecycle := s.runtime.lifecycle));
    assert Carried(mid.entries, mid.flights, sent.name, sent.child) by {
      assert who in mid.flights && Watched(mid.flights[who]);
    }
    MessageKeepsCorresponds(mid, q, sent);
    assert Advance(s, who, Monitored, q) == mid.(runtime := q);
  }

  lemma MessageKeepsCorresponds(s: State, q: Runtime, sent: Message)
    requires Corresponds(s) && Carried(s.entries, s.flights, sent.name, sent.child)
    requires q.lifecycle.queue == s.runtime.lifecycle.queue + [sent] && s.runtime.aborted == q.aborted
    ensures Corresponds(s.(runtime := q))
  {
    var s' := s.(runtime := q);
    forall n | n in s'.restarts ensures RequestCarried(s', n) {
      assert RequestCarried(s, n);
    }
    assert forall id :: Armed(s', id) ==> Armed(s, id);
  }

  lemma SubmitMonitorKeepsCorresponds(s: State, who: Who, sent: bool)
    requires Agree(s.runtime.table) && Corresponds(s) && At(s, who, Logged)
    ensures Corresponds(DoSubmit(s, who, Process, sent, Monitored))
  {
    var f := s.flights[who];
    PostGrows(s.runtime, Process, f, true);
    PostGrows(s.runtime, Process, f, false);
    if ListsType(s.runtime.table, f.pid, Process) {
      EarlyGiveUpKeepsCorresponds(s, who, s.runtime);
    } else if sent {
      MonitoredKeepsCorresponds(s, who, Post(s.runtime, Process, f, true),
                                Message(s.runtime.table.next, f.pid, f.config.name, f.child));
    } else {
      EarlyGiveUpKeepsCorresponds(s, who, Post(s.runtime, Process, f, false));
    }
  }

  lemma MetricsOutcome(s: State, who: Who, sent: bool)
    requires Delivered(s.runtime) && Admitted(s) && At(s, who, Monitored)
    ensures var q := Post(s.runtime, Metrics, s.flights[who], sent);
            && DoSubmit(s, who, Metrics, sent, Measured)
               == (if sent then Advance(s, who, Measured, q) else GiveUp(s, who, q))
            && q.lifecycle.queue == s.runtime.lifecycle.queue && q.aborted == s.runtime.aborted
  {
    DuplicateCheckIsExact(s.runtime.table, s.flights[who].pid, Metrics);
    PostGrows(s.runtime, Metrics, s.flights[who], sent);
  }

  lemma SubmitMetricsIsExact(s: State, who: Who, sent: bool)
    requires Sound(s) && Corresponds(s) && At(s, who, Monitored)
    ensures Corresponds(DoSubmit(s, who, Metrics, sent, Measured)) <==> sent || MayGiveUp(s, who)
  {
    var q := Post(s.runtime, Metrics, s.flights[who], sent);
    MetricsOutcome(s, who, sent);
    if sent {
      AdvanceKeepsCorresponds(s, who, Measured, q);
    } else if MayGiveUp(s, who) {
      LateGiveUpKeepsCorresponds(s, who, q);
    } else {
      RequestedGiveUpBreaks(s, who, q);
    }
  }

  // ----- stopping -----

  lemma EntryIsRecorded(s: State, name: string)
    requires Records(s) && EntriesInserted(s.entries, s.past.inserted) && name in s.entries
    ensures var e := s.entries[name];
            e.child < |s.past.births| && s.past.births[e.child].pid == e.pid
            && s.past.births[e.child].config.name == name
  {
    var e := s.entries[name];
    assert Recorded(s.past.births, e.child, Birth(e.pid, e.config, e.root));
  }

  lemma RemovalKeepsNames(s: State, name: string)
    requires NamesUnique(s.entries, s.flights, s.handler)
    ensures NamesUnique(s.entries - {name}, s.flights, s.handler)
  {
  }

  lemma StopKeepsCorresponds(s: State, name: string)
    requires Corresponds(s) && name in s.entries && name !in s.restarts
    requires forall n :: Carried(s.entries, s.flights, n, s.entries[name].child) ==> n == name
    requires forall id :: id in s.sending ==> s.sending[id].child != s.entries[name].child
    ensures Corresponds(DoStop(s, name))
  {
    RemovalKeepsNames(s, name);
    ReleaseKeepsCorresponds(s, DoStop(s, name), name, s.entries[name].child);
  }

  /** Once the entry is gone nothing carries its name. */
  lemma StoppedNameIsUncarried(s: State, name: string, c: nat)
    requires NamesUnique(s.entries, s.flights, s.handler) && name in s.entries
    ensures !Carried(s.entries - {name}, s.flights, name, c)
  {
  }

  lemma RequestedStopBreaks(s: State, name: string)
    requires NamesUnique(s.entries, s.flights, s.handler) && name in s.entries && Requested(s, name)
    ensures !Corresponds(DoStop(s, name))
  {
    var s' := DoStop(s, name);
    forall c: nat ensures !Carried(s'.entries, s'.flights, name, c) {
      StoppedNameIsUncarried(s, name, c);
    }
    UncarriedMustBeSilent(s', name);
  }

  lemma StopIsExact(s: State, name: string)
    requires Sound(s) && Corresponds(s)
    ensures Corresponds(DoStop(s, name)) <==> (name in s.entries ==> !Requested(s, name))
  {
    if name in s.entries {
      if Requested(s, name) {
        RequestedStopBreaks(s, name);
      } else {
        EntryIsRecorded(s, name);
        OnlyItsNameCarries(s, name, s.entries[name].child);
        SilentNameSilentChild(s, name, s.entries[name].child);
        StopKeepsCorresponds(s, name);
      }
    }
  }

  // ----- killing a condemned child -----

  /** A received process task holds its monitor's handle, so killing its pid aborts the monitor. */
  lemma KillAbortsMonitor(r: Runtime, monitors: map<TaskId, Monitor>, id: TaskId)
    requires Delivered(r) && MonitorsReceived(r, monitors) && id in monitors && r.lifecycle.held != Some(id)
    ensures Handle(id, 0) in KillTasks(r, monitors[id].pid).aborted
  {
    KillReachesEveryTask(r.table, monitors[id].pid);
    assert r.table.tasks[id].handles == HandlesDue(r.lifecycle, Process, id);
    assert r.table.tasks[id].handles[0] == Handle(id, 0);
  }

  /** A monitor whose handle is not registered yet is aborted by no kill. */
  lemma HeldIsNotAborted(r: Runtime, id: TaskId, pid: Pid)
    requires Delivered(r) && id in r.table.tasks && r.table.tasks[id].ty == Process && r.lifecycle.held == Some(id)
    ensures Handle(id, 0) !in KillTasks(r, pid).aborted
  {
    assert r.table.tasks[id].handles == HandlesDue(r.lifecycle, Process, id) == [];
    forall h | h in KillHandles(r.table, pid) ensures h.task != id {
      var i :| i in Listed(r.table, pid) && i in r.table.tasks && h in r.table.tasks[i].handles;
      HandlesAreOwn(r, i, h);
    }
  }

  /** After the kill no monitor of a reachable child is armed any more. */
  lemma ReachableIsSilenced(s: State, child: nat)
    requires Delivered(s.runtime) && MonitorsReceived(s.runtime, s.monitors) && Reachable(s, child)
    requires MonitorsAnswer(s.past.births, s.os, s.monitors)
    requires child in s.condemned && child < |s.past.births| && s.past.births[child].pid == s.condemned[child]
    ensures forall id :: Armed(DoFinish(s, child), id) ==> s.monitors[id].child != child
  {
    forall id | id in s.monitors && s.monitors[id].child == child
      ensures Handle(id, 0) in KillTasks(s.runtime, s.condemned[child]).aborted {
      assert Answers(s.past.births, s.os, s.monitors[id]);
      KillAbortsMonitor(s.runtime, s.monitors, id);
    }
  }

  lemma SilencedFinishKeepsCorresponds(s: State, child: nat)
    requires Corresponds(s) && child in s.condemned && Reachable(s, child)
    requires forall id :: Armed(DoFinish(s, child), id) ==> s.monitors[id].child != child
    ensures Corresponds(DoFinish(s, child))
  {
    var s' := DoFinish(s, child);
    assert forall id :: Armed(s', id) ==> Armed(s, id) && s'.monitors[id] == s.monitors[id];
    forall n | n in s'.restarts ensures RequestCarried(s', n) {
      assert RequestCarried(s, n);
    }
  }

  lemma ApartIsUncarried(s: State, name: string, child: nat)
    requires Apart(s.past, s.condemned, s.flights, s.entries) && child in s.condemned
    ensures !Carried(s.entries, s.flights, name, child)
  {
  }

  /** A message or monitor the kill does not reach outlives its child's last record. */
  lemma UnreachableFinishBreaks(s: State, child: nat)
    requires Delivered(s.runtime) && MonitorsReceived(s.runtime, s.monitors)
    requires Apart(s.past, s.condemned, s.flights, s.entries) && child in s.condemned && !Reachable(s, child)
    ensures !Corresponds(DoFinish(s, child))
  {
    var s' := DoFinish(s, child);
    forall n ensures !Carried(s'.entries, s'.flights, n, child) {
      ApartIsUncarried(s, n, child);
    }
    if id :| id in s.monitors && s.monitors[id].child == child && s.runtime.lifecycle.held == Some(id) {
      HeldIsNotAborted(s.runtime, id, s.condemned[child]);
      assert Armed(s', id);
    } else {
      assert !QueueCarried(s');
    }
  }

  lemma FinishIsExact(s: State, child: nat)
    requires Sound(s) && Corresponds(s) && child in s.condemned
    ensures Corresponds(DoFinish(s, child)) <==> Reachable(s, child)
  {
    if Reachable(s, child) {
      ReachableIsSilenced(s, child);
      SilencedFinishKeepsCorresponds(s, child);
    } else {
      UnreachableFinishBreaks(s, child);
    }
  }

  // ----- inserting, receiving, discarding -----

  lemma InsertKeepsCarriers(s: State, who: Who)
    requires NamesUnique(s.entries, s.flights, s.handler) && At(s, who, Measured)
    ensures KeepsCarriers(s, DoInsert(s, who))
  {
    var s' := DoInsert(s, who);
    forall n, c: nat | Carried(s.entries, s.flights, n, c) ensures Carried(s'.entries, s'.flights, n, c) {
      if !(n in s.entries && s.entries[n].child == c) {
        var w :| w in s.flights && Watched(s.flights[w])
                 && s.flights[w].config.name == n && s.flights[w].child == c;
        assert w == who || (w in s'.flights && s'.flights[w] == s.flights[w]);
      }
    }
  }

  lemma InsertKeepsNames(s: State, who: Who)
    requires NamesUnique(s.entries, s.flights, s.handler) && who in s.flights
    ensures var s' := DoInsert(s, who); NamesUnique(s'.entries, s'.flights, s'.handler)
  {
  }

  lemma InsertKeepsCorresponds(s: State, who: Who)
    requires Corresponds(s) && At(s, who, Measured)
    ensures Corresponds(DoInsert(s, who))
  {
    InsertKeepsCarriers(s, who);
    InsertKeepsNames(s, who);
    FrameKeepsCorresponds(s, DoInsert(s, who));
  }

  /** Under the discipline the handler finds the entry, and its child has already been reaped. */
  lemma RequestFindsItsEntry(s: State)
    requires HandlerOwns(s.flights, s.handler)
    requires Corresponds(s) && Enabled(s, Receive) && !Starting(s.flights, s.restarts[0])
    ensures s.restarts[0] in s.entries
    ensures !Known(s.past.births, s.os, s.entries[s.restarts[0]].child)
  {
    var name := s.restarts[0];
    assert RequestCarried(s, name);
    var c: nat :| c < |s.past.births| && Carried(s.entries, s.flights, name, c) && !Known(s.past.births, s.os, c);
    forall w | w in s.flights ensures s.flights[w].config.name != name {
      assert w.Client?;
    }
  }

  /** The handler has taken the request off its queue. */
  lemma TakenKeepsCorresponds(s: State)
    requires Corresponds(s) && s.restarts != []
    ensures Corresponds(s.(restarts := s.restarts[1..])) && s.restarts[0] !in s.restarts[1..]
  {
    var mid := s.(restarts := s.restarts[1..]);
    assert forall n :: n in mid.restarts ==> n in s.restarts;
    forall n | n in mid.restarts ensures RequestCarried(mid, n) {
      assert RequestCarried(s, n);
    }
    assert forall id :: Armed(mid, id) <==> Armed(s, id);
  }

  lemma ReapedIsSilent(s: State, child: nat)
    requires Sources(s) && !Known(s.past.births, s.os, child)
    ensures Unwatched(s.runtime.lifecycle.queue, s.monitors, child)
  {
    forall m | m in s.runtime.lifecycle.queue ensures m.child != child {
      assert Answers(s.past.births, s.os, Awaited(m));
    }
    forall id | id in s.monitors ensures s.monitors[id].child != child {
      assert Answers(s.past.births, s.os, s.monitors[id]);
    }
  }

  lemma ReceivedNameIsFree(s: State)
    requires NamesUnique(s.entries, s.flights, s.handler) && Enabled(s, Receive)
    requires s.restarts[0] in s.entries && s.entries[s.restarts[0]].config.name == s.restarts[0]
    ensures var s' := DoReceive(s); NamesUnique(s'.entries, s'.flights, s'.handler)
  {
    var name := s.restarts[0];
    assert Respawn(s.entries[name].config).1.name == name;
    assert forall n :: Busy(DoReceive(s).handler, n) ==> n == name;
  }

  /** Removing an entry and killing its tasks, as the handler does. */
  lemma RemovalIsQuiet(s: State, s': State, name: string)
    requires name in s.entries && s'.entries == s.entries - {name} && s'.flights == s.flights
    requires s'.runtime == KillTasks(s.runtime, s.entries[name].pid) && s'.monitors == s.monitors
    requires s'.sending == s.sending && s'.condemned == s.condemned
    ensures AddsNoSource(s, s') && KeepsOtherCarriers(s, s', s.entries[name].child)
  {
  }

  lemma SilentReceiveKeepsCorresponds(s: State)
    requires Corresponds(s) && Enabled(s, Receive)
    requires s.restarts[0] in s.entries && s.entries[s.restarts[0]].config.name == s.restarts[0]
    requires Unwatched(s.runtime.lifecycle.queue, s.monitors, s.entries[s.restarts[0]].child)
    requires forall id :: id in s.sending ==> s.sending[id].child != s.entries[s.restarts[0]].child
    requires forall n :: Carried(s.entries, s.flights, n, s.entries[s.restarts[0]].child) ==> n == s.restarts[0]
    ensures Corresponds(DoReceive(s))
  {
    var name := s.restarts[0];
    var s' := DoReceive(s);
    var mid := s.(restarts := s.restarts[1..]);
    TakenKeepsCorresponds(s);
    RemovalIsQuiet(mid, s', name);
    ReceivedNameIsFree(s);
    ReleaseKeepsCorresponds(mid, s', name, s.entries[name].child);
  }

  lemma QueuedNameIsSilent(s: State, name: string)
    requires RequestsDistinct(s) && name in s.restarts
    ensures !Speaking(s.sending, name)
  {
  }

  lemma StartingIsNotEntered(s: State, name: string)
    requires NamesUnique(s.entries, s.flights, s.handler) && Starting(s.flights, name)
    ensures name !in s.entries
  {
  }

  lemma ReceiveIsExact(s: State)
    requires Sound(s) && Corresponds(s) && Enabled(s, Receive)
    ensures Corresponds(DoReceive(s)) <==> !Starting(s.flights, s.restarts[0])
    ensures DoReceive(s).handler == Gone(true) <==> Starting(s.flights, s.restarts[0])
  {
    var name := s.restarts[0];
    if Starting(s.flights, name) {
      StartingIsNotEntered(s, name);
    } else {
      RequestFindsItsEntry(s);
      EntryIsRecorded(s, name);
      OnlyItsNameCarries(s, name, s.entries[name].child);
      ReapedIsSilent(s, s.entries[name].child);
      QueuedNameIsSilent(s, name);
      SilentNameSilentChild(s, name, s.entries[name].child);
      SilentReceiveKeepsCorresponds(s);
    }
  }

  lemma DiscardKeepsCorresponds(s: State)
    requires Corresponds(s) && s.handler.Discarding?
    ensures Corresponds(DoDiscard(s)) && DoDiscard(s).entries == s.entries
  {
    BusyNameIsFree(s, s.handler.name);
    assert s.entries - {s.handler.name} == s.entries;
    FrameKeepsCorresponds(s, DoDiscard(s));
  }

  // ----- monitors -----

  lemma RecvProcessKeepsCorresponds(s: State)
    requires Corresponds(s) && Enabled(s, Recv(Process))
    ensures Corresponds(DoRecv(s, Process))
  {
    var s' := DoRecv(s, Process);
    var m := s.runtime.lifecycle.queue[0];
    assert m in s.runtime.lifecycle.queue;
    assert forall x :: x in s'.runtime.lifecycle.queue ==> x in s.runtime.lifecycle.queue;
    forall n | n in s'.restarts ensures RequestCarried(s', n) {
      assert RequestCarried(s, n);
    }
    assert forall id :: Armed(s', id) ==> id == m.id || Armed(s, id);
  }

  /** The child of an armed monitor is not reaped, so no request of its name can be on its way. */
  lemma ArmedIsUnrequested(s: State, id: TaskId)
    requires Corresponds(s) && Sources(s) && Armed(s, id) && s.monitors[id].child !in s.condemned
    ensures !Requested(s, s.monitors[id].name)
  {
    var m := s.monitors[id];
    assert Answers(s.past.births, s.os, m) && Carried(s.entries, s.flights, m.name, m.child);
    forall n | n in s.restarts ensures n != m.name {
      assert RequestCarried(s, n);
      var c: nat :| c < |s.past.births| && Carried(s.entries, s.flights, n, c) && !Known(s.past.births, s.os, c);
      if n == m.name {
        CarrierIsUnique(s, n, c, m.child);
      }
    }
    forall j | j in s.sending ensures s.sending[j].name != m.name {
      assert Spoke(s.past.births, s.os, s.sending[j]);
      if s.sending[j].name == m.name {
        CarrierIsUnique(s, m.name, s.sending[j].child, m.child);
      }
    }
  }

  lemma ReapKeepsCorresponds(s: State, id: TaskId)
    requires Corresponds(s) && Sources(s) && Armed(s, id) && s.monitors[id].child !in s.condemned
    ensures Corresponds(DoReap(s, id))
  {
    ArmedIsUnrequested(s, id);
    NewSenderStaysDistinct(s, id);
    ReapKeepsRequests(s, id);
    ReapKeepsCarried(s, id);
  }

  lemma NewSenderStaysDistinct(s: State, id: TaskId)
    requires RequestsDistinct(s) && id in s.monitors && !Requested(s, s.monitors[id].name)
    ensures RequestsDistinct(DoReap(s, id))
  {
  }

  lemma ReapKeepsRequests(s: State, id: TaskId)
    requires RequestsCarried(s) && id in s.monitors
    ensures RequestsCarried(DoReap(s, id))
  {
    forall n | n in s.restarts ensures RequestCarried(DoReap(s, id), n) {
      assert RequestCarried(s, n);
    }
  }

  lemma ReapKeepsCarried(s: State, id: TaskId)
    requires QueueCarried(s) && MonitorsCarried(s) && SendersCarried(s) && Armed(s, id)
    requires s.monitors[id].child !in s.condemned
    ensures var s' := DoReap(s, id); QueueCarried(s') && MonitorsCarried(s') && SendersCarried(s')
  {
    assert forall j :: Armed(DoReap(s, id), j) ==> Armed(s, j) && DoReap(s, id).monitors[j] == s.monitors[j];
  }

  lemma CondemnedReapBreaks(s: State, id: TaskId)
    requires Apart(s.past, s.condemned, s.flights, s.entries) && id in s.monitors
    requires s.monitors[id].child in s.condemned
    ensures !Corresponds(DoReap(s, id))
  {
    var m := s.monitors[id];
    ApartIsUncarried(s, m.name, m.child);
    assert DoReap(s, id).sending[id] == m;
  }

  lemma ReapIsExact(s: State, id: TaskId)
    requires Sound(s) && Corresponds(s) && Armed(s, id)
    ensures Corresponds(DoReap(s, id)) <==> s.monitors[id].child !in s.condemned
  {
    if s.monitors[id].child in s.condemned {
      CondemnedReapBreaks(s, id);
    } else {
      ReapKeepsCorresponds(s, id);
    }
  }

  lemma SendKeepsCorresponds(s: State, id: TaskId)
    requires Corresponds(s) && SendersReaped(s.past.births, s.os, s.sending) && id in s.sending
    ensures Corresponds(DoSend(s, id))
  {
    SendKeepsRequests(s, id);
    SentStaysDistinct(s, id);
    assert forall j :: Armed(DoSend(s, id), j) <==> Armed(s, j);
  }

  lemma SendKeepsRequests(s: State, id: TaskId)
    requires RequestsCarried(s) && SendersCarried(s) && id in s.sending && Spoke(s.past.births, s.os, s.sending[id])
    ensures RequestsCarried(DoSend(s, id))
  {
    var s' := DoSend(s, id);
    forall n | n in s'.restarts ensures RequestCarried(s', n) {
      if n in s.restarts {
        assert RequestCarried(s, n);
      } else {
        assert Carried(s'.entries, s'.flights, n, s.sending[id].child);
      }
    }
  }

  lemma SentStaysDistinct(s: State, id: TaskId)
    requires RequestsDistinct(s) && id in s.sending
    ensures RequestsDistinct(DoSend(s, id))
  {
  }

  // ----- the other steps -----

  lemma QuietKeepsCorresponds(s: State, s': State)
    requires Corresponds(s) && s'.entries == s.entries && s'.flights == s.flights && s'.handler == s.handler
    requires s'.restarts == s.restarts && s'.sending == s.sending && s'.condemned == s.condemned
    requires s'.past.births == s.past.births
    requires s'.runtime.lifecycle.queue == s.runtime.lifecycle.queue && s'.runtime.aborted == s.runtime.aborted
    requires s'.monitors.Keys <= s.monitors.Keys && forall id :: id in s'.monitors ==> s'.monitors[id] == s.monitors[id]
    requires forall c: nat :: Known(s'.past.births, s'.os, c) ==> Known(s.past.births, s.os, c)
    ensures Corresponds(s')
  {
    forall id | Armed(s', id) ensures Armed(s, id) {
      assert id in s'.monitors.Keys;
    }
    FrameKeepsCorresponds(s, s');
  }

  lemma RuntimeKeepsCorresponds(s: State, q: Runtime)
    requires Corresponds(s)
    requires q.lifecycle.queue == s.runtime.lifecycle.queue && q.aborted == s.runtime.aborted
    ensures Corresponds(s.(runtime := q))
  {
    QuietKeepsCorresponds(s, s.(runtime := q));
  }

  lemma RecvKeepsCorresponds(s: State, ty: TaskType)
    requires Corresponds(s) && Enabled(s, Recv(ty))
    ensures Corresponds(DoRecv(s, ty))
  {
    if ty == Process {
      RecvProcessKeepsCorresponds(s);
    } else {
      RuntimeKeepsCorresponds(s, Received(s.runtime, ty));
    }
  }

  lemma AttachKeepsCorresponds(s: State, ty: TaskType)
    requires Delivered(s.runtime) && Corresponds(s) && Enabled(s, Attach(ty))
    ensures Corresponds(s.(runtime := Attached(s.runtime, ty)))
  {
    AttachGrows(s.runtime, ty);
    RuntimeKeepsCorresponds(s, Attached(s.runtime, ty));
  }

  lemma EndKeepsCorresponds(s: State, step: Step)
    requires Corresponds(s) && Enabled(s, step) && (step.MonitorFails? || step.TaskFails? || step.Exit?)
    ensures Corresponds(Next(s, step))
  {
    QuietKeepsCorresponds(s, Next(s, step));
  }

  lemma AbandonKeepsCorresponds(s: State, who: Who)
    requires Corresponds(s) && At(s, who, Spawned)
    ensures Corresponds(DoAbandon(s, who))
  {
    var pid := s.flights[who].pid;
    QuietKeepsCorresponds(s, Signal(s, pid));
    EarlyDropKeepsCorresponds(Signal(s, pid), who);
  }

  lemma SubmitLogKeepsCorresponds(s: State, who: Who, sent: bool)
    requires Agree(s.runtime.table) && Corresponds(s) && At(s, who, Spawned)
    ensures Corresponds(DoSubmitLog(s, who, sent))
  {
    PostGrows(s.runtime, Logging, s.flights[who], sent);
    AdvanceKeepsCorresponds(s, who, Logged, Post(s.runtime, Logging, s.flights[who], sent));
  }

  // ----- every step, and every run -----

  /** The commands with a condition of their own; below, the other steps with one. */
  lemma CommandStepIsExact(s: State, step: Step)
    requires Sound(s) && Corresponds(s) && Enabled(s, step)
    requires step.Start? || step.Stop? || step.Finish?
    ensures Corresponds(Next(s, step)) <==> Disciplined(s, step)
  {
    match step
    case Start(config, fork) => StartIsExact(s, config, fork);
    case Stop(name) => StopIsExact(s, name);
    case Finish(child) => FinishIsExact(s, child);
  }

  lemma BackgroundStepIsExact(s: State, step: Step)
    requires Sound(s) && Corresponds(s) && Enabled(s, step)
    requires step.SubmitMetrics? || step.Reap? || step.Receive?
    ensures Corresponds(Next(s, step)) <==> Disciplined(s, step)
  {
    match step
    case SubmitMetrics(who, sent) => SubmitMetricsIsExact(s, who, sent);
    case Reap(id) => ReapIsExact(s, id);
    case Receive => ReceiveIsExact(s);
  }

  /** The steps of `start` and of the handler that are always safe. */
  lemma FlightStepKeepsCorresponds(s: State, step: Step)
    requires Sound(s) && Corresponds(s) && Enabled(s, step)
    requires step.Refork? || step.Abandon? || step.SubmitLog? || step.SubmitMonitor? || step.Insert? || step.Discard?
    ensures Corresponds(Next(s, step))
  {
    match step
    case Refork(fork) =>
      ClientIsFresh(s);
      ReforkKeepsCorresponds(s, fork);
    case Abandon(who) => AbandonKeepsCorresponds(s, who);
    case SubmitLog(who, sent) => SubmitLogKeepsCorresponds(s, who, sent);
    case SubmitMonitor(who, sent) => SubmitMonitorKeepsCorresponds(s, who, sent);
    case Insert(who) => InsertKeepsCorresponds(s, who);
    case Discard => DiscardKeepsCorresponds(s);
  }

  lemma EnvironmentKeepsCorresponds(s: State, step: Step)
    requires Delivered(s.runtime) && SendersReaped(s.past.births, s.os, s.sending)
    requires Corresponds(s) && Enabled(s, step)
    requires step.Recv? || step.Attach? || step.Send? || step.MonitorFails? || step.TaskFails? || step.Exit?
    ensures Corresponds(Next(s, step))
  {
    match step
    case Recv(ty) => RecvKeepsCorresponds(s, ty);
    case Attach(ty) => AttachKeepsCorresponds(s, ty);
    case Send(id) => SendKeepsCorresponds(s, id);
    case _ => EndKeepsCorresponds(s, step);
  }

  /** In a state in correspondence, a step keeps it if and only if the discipline allows the step. */
  lemma StepIsExact(s: State, step: Step)
    requires Sound(s) && Corresponds(s) && Enabled(s, step)
    ensures Corresponds(Next(s, step)) <==> Disciplined(s, step)
  {
    if step.Start? || step.Stop? || step.Finish? {
      CommandStepIsExact(s, step);
    } else if step.SubmitMetrics? || step.Reap? || step.Receive? {
      BackgroundStepIsExact(s, step);
    } else if step.Refork? || step.Abandon? || step.SubmitLog? || step.SubmitMonitor? || step.Insert? || step.Discard? {
      FlightStepKeepsCorresponds(s, step);
    } else {
      EnvironmentKeepsCorresponds(s, step);
    }
  }

  /** Requests and entries correspond in every state of the run. */
  ghost predicate CorrespondsThroughout(steps: seq<Step>) {
    && Exec(INIT, steps).Some? && Corresponds(Exec(INIT, steps).value)
    && (steps != [] ==> CorrespondsThroughout(steps[..|steps| - 1]))
  }

  /** A run keeps requests and entries in correspondence if and only if it is disciplined. */
  lemma {:induction false} DisciplineIsExact(steps: seq<Step>, s: State)
    requires Reaches(steps, s)
    ensures DisciplinedRun(steps) <==> CorrespondsThroughout(steps)
  {
    if steps == [] {
      InitCorresponds();
    } else {
      var n := |steps| - 1;
      var before := Exec(INIT, steps[..n]).value;
      DisciplineIsExact(steps[..n], before);
      AlwaysSound(steps[..n], before);
      if CorrespondsThroughout(steps[..n]) {
        StepIsExact(before, steps[n]);
      }
    }
  }

  lemma InitCorresponds()
    ensures Corresponds(INIT)
  {
  }

  lemma DisciplineKeepsCorrespondence(steps: seq<Step>, s: State)
    requires Reaches(steps, s) && DisciplinedRun(steps)
    ensures Sound(s) && Corresponds(s)
  {
    AlwaysSound(steps, s);
    DisciplineIsExact(steps, s);
  }

  /** After a disciplined run, any enabled step keeps the correspondence if and only if the discipline allows it. */
  lemma NextStepIsExact(steps: seq<Step>, s: State, step: Step)
    requires Reaches(steps, s) && DisciplinedRun(steps) && Enabled(s, step)
    ensures Corresponds(Next(s, step)) <==> Disciplined(s, step)
  {
    DisciplineKeepsCorrespondence(steps, s);
    StepIsExact(s, step);
  }
}
