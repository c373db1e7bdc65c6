/**
 Who answers for each forked child: the records kept by flights, entries,
 messages and monitors. Everything here holds in every run, whatever the
 commands and however the steps interleave.
 */
module Children {
  import opened Tasks
  import opened Config
  import opened Machine
  import opened Delivery
  import opened Admission

  /** The kernel still knows the child: it is running, or exited and not yet waited for. */
  predicate Known(births: seq<Birth>, os: map<Pid, Child>, child: nat) {
    child < |births| && births[child].pid in os && os[births[child].pid].number == child
  }

  predicate Recorded(births: seq<Birth>, child: nat, birth: Birth) {
    child < |births| && births[child] == birth
  }

  // ----- every record agrees with the births -----

  ghost predicate OsRecorded(births: seq<Birth>, os: map<Pid, Child>) {
    forall p :: p in os ==> os[p].number < |births| && births[os[p].number].pid == p
  }

  ghost predicate FlightsRecorded(births: seq<Birth>, flights: map<Who, Flight>) {
    forall w :: w in flights ==>
      Recorded(births, flights[w].child, Birth(flights[w].pid, flights[w].config, flights[w].root))
  }

  ghost predicate EntriesRecorded(births: seq<Birth>, entries: map<string, Entry>) {
    forall n :: n in entries ==>
      Recorded(births, entries[n].child, Birth(entries[n].pid, entries[n].config, entries[n].root))
  }

  ghost predicate PastRecorded(past: Past) {
    && (forall e :: e in past.inserted ==> e.child < |past.births|)
    && (forall c :: c in past.leaked ==> c < |past.births|)
    && (forall e :: e in past.inserted ==> e.child !in past.leaked)
  }

  // ----- no child has two holders -----

  ghost predicate FlightsDistinct(flights: map<Who, Flight>) {
    && (forall w :: w in flights && w.Client? ==> w.child == flights[w].child)
    && (forall w, v | w in flights && v in flights :: flights[w].child == flights[v].child ==> w == v)
  }

  ghost predicate EntriesDistinct(entries: map<string, Entry>) {
    forall n, m | n in entries && m in entries :: entries[n].child == entries[m].child ==> n == m
  }

  ghost predicate FlightsUnplaced(flights: map<Who, Flight>, past: Past) {
    && (forall w, e :: w in flights && e in past.inserted ==> flights[w].child != e.child)
    && (forall w :: w in flights ==> flights[w].child !in past.leaked)
  }

  ghost predicate HandlerOwns(flights: map<Who, Flight>, handler: Handler) {
    Restarter in flights <==> handler == Placing
  }

  // ----- every message and monitor waits for a child nobody else will reap -----

  ghost predicate Answers(births: seq<Birth>, os: map<Pid, Child>, m: Monitor) {
    && Known(births, os, m.child)
    && births[m.child].pid == m.pid
    && births[m.child].config.name == m.name
  }

  function Awaited(m: Message): Monitor {
    Monitor(m.pid, m.name, m.child)
  }

  ghost predicate QueueAnswers(births: seq<Birth>, os: map<Pid, Child>, queue: seq<Message>) {
    forall m :: m in queue ==> Answers(births, os, Awaited(m))
  }

  ghost predicate MonitorsAnswer(births: seq<Birth>, os: map<Pid, Child>, monitors: map<TaskId, Monitor>) {
    forall id :: id in monitors ==> Answers(births, os, monitors[id])
  }

  ghost predicate Unwatched(queue: seq<Message>, monitors: map<TaskId, Monitor>, child: nat) {
    && (forall m :: m in queue ==> m.child != child)
    && (forall id :: id in monitors ==> monitors[id].child != child)
  }

  ghost predicate EarlyKnown(births: seq<Birth>, os: map<Pid, Child>, flights: map<Who, Flight>) {
    forall w :: w in flights && !Watched(flights[w]) ==> Known(births, os, flights[w].child)
  }

  ghost predicate EarlyUnwatched(flights: map<Who, Flight>, queue: seq<Message>, monitors: map<TaskId, Monitor>) {
    forall w :: w in flights && !Watched(flights[w]) ==> Unwatched(queue, monitors, flights[w].child)
  }

  /** A monitor belongs to a process task already received. */
  ghost predicate MonitorsReceived(r: Runtime, monitors: map<TaskId, Monitor>) {
    forall id :: id in monitors ==>
      && id in r.lifecycle.consumed && id in r.table.tasks
      && r.table.tasks[id].pid == monitors[id].pid && r.table.tasks[id].ty == Process
  }

  /** A monitor with a request to send has reaped its child. */
  ghost predicate SendersReaped(births: seq<Birth>, os: map<Pid, Child>, sending: map<TaskId, Monitor>) {
    forall id :: id in sending ==> Spoke(births, os, sending[id])
  }

  ghost predicate Spoke(births: seq<Birth>, os: map<Pid, Child>, m: Monitor) {
    && !Known(births, os, m.child)
    && m.child < |births|
    && births[m.child].config.name == m.name
  }

  /** A condemned child is held by nobody else. */
  ghost predicate Apart(past: Past, condemned: map<nat, Pid>, flights: map<Who, Flight>, entries: map<string, Entry>) {
    && (forall c :: c in condemned ==>
          c < |past.births| && past.births[c].pid == condemned[c] && c !in past.leaked)
    && (forall w :: w in flights ==> flights[w].child !in condemned)
    && (forall n :: n in entries ==> entries[n].child !in condemned)
  }

  ghost predicate Records(s: State) {
    && OsRecorded(s.past.births, s.os)
    && FlightsRecorded(s.past.births, s.flights)
    && EntriesRecorded(s.past.births, s.entries)
    && PastRecorded(s.past)
  }

  ghost predicate Holders(s: State) {
    && FlightsDistinct(s.flights)
    && EntriesDistinct(s.entries)
    && FlightsUnplaced(s.flights, s.past)
    && HandlerOwns(s.flights, s.handler)
    && Apart(s.past, s.condemned, s.flights, s.entries)
  }

  ghost predicate Sources(s: State) {
    && QueueAnswers(s.past.births, s.os, s.runtime.lifecycle.queue)
    && MonitorsAnswer(s.past.births, s.os, s.monitors)
    && SendersReaped(s.past.births, s.os, s.sending)
    && EarlyKnown(s.past.births, s.os, s.flights)
    && EarlyUnwatched(s.flights, s.runtime.lifecycle.queue, s.monitors)
    && MonitorsReceived(s.runtime, s.monitors)
  }

  ghost predicate Kept(s: State) {
    Records(s) && Holders(s) && Sources(s)
  }

  // ----- a birth -----

  lemma BirthKeepsKnown(births: seq<Birth>, os: map<Pid, Child>, b: Birth, c: nat)
    requires b.pid !in os && Known(births, os, c)
    ensures Known(births + [b], os[b.pid := Child(|births|, false)], c)
  {
  }

  lemma BirthKeepsRecords(s: State, b: Birth)
    requires Records(s) && b.pid !in s.os
    ensures OsRecorded(s.past.births + [b], s.os[b.pid := Child(Newborn(s), false)])
    ensures FlightsRecorded(s.past.births + [b], s.flights)
    ensures EntriesRecorded(s.past.births + [b], s.entries)
  {
  }

  lemma BirthKeepsSources(s: State, b: Birth)
    requires Sources(s) && b.pid !in s.os
    ensures var births, os := s.past.births + [b], s.os[b.pid := Child(Newborn(s), false)];
            && QueueAnswers(births, os, s.runtime.lifecycle.queue)
            && MonitorsAnswer(births, os, s.monitors)
            && SendersReaped(births, os, s.sending)
            && EarlyKnown(births, os, s.flights)
            && Known(births, os, Newborn(s))
    ensures Unwatched(s.runtime.lifecycle.queue, s.monitors, Newborn(s))
  {
    var births, os := s.past.births + [b], s.os[b.pid := Child(Newborn(s), false)];
    forall c | Known(s.past.births, s.os, c) ensures Known(births, os, c) {
      BirthKeepsKnown(s.past.births, s.os, b, c);
    }
    forall m | m in s.runtime.lifecycle.queue ensures Answers(births, os, Awaited(m)) && m.child != Newborn(s) {
      assert Answers(s.past.births, s.os, Awaited(m));
    }
    forall id | id in s.monitors ensures Answers(births, os, s.monitors[id]) && s.monitors[id].child != Newborn(s) {
      assert Answers(s.past.births, s.os, s.monitors[id]);
    }
    forall id | id in s.sending ensures Spoke(births, os, s.sending[id]) {
      assert Spoke(s.past.births, s.os, s.sending[id]);
    }
  }

  lemma NewFlightKeepsHolders(s: State, who: Who, f: Flight)
    requires Records(s) && Holders(s) && who !in s.flights && f.child == Newborn(s)
    requires who.Client? ==> who.child == f.child
    ensures FlightsDistinct(s.flights[who := f]) && FlightsUnplaced(s.flights[who := f], s.past)
    ensures forall b :: Apart(s.past.(births := s.past.births + [b]), s.condemned, s.flights[who := f], s.entries)
  {
    forall w | w in s.flights ensures s.flights[w].child < Newborn(s) {
      assert Recorded(s.past.births, s.flights[w].child,
                      Birth(s.flights[w].pid, s.flights[w].config, s.flights[w].root));
    }
  }

  lemma LaunchKeepsSources(s: State, who: Who, f: Flight, b: Birth)
    requires Sources(s) && b.pid !in s.os && f.child == Newborn(s)
    ensures var births, os := s.past.births + [b], s.os[b.pid := Child(Newborn(s), false)];
            && EarlyKnown(births, os, s.flights[who := f])
            && EarlyUnwatched(s.flights[who := f], s.runtime.lifecycle.queue, s.monitors)
  {
    BirthKeepsSources(s, b);
    forall w | w in s.flights && !Watched(s.flights[w])
      ensures Unwatched(s.runtime.lifecycle.queue, s.monitors, s.flights[w].child) {
    }
  }

  lemma LaunchKeepsKept(s: State, s': State, who: Who, pid: Pid, config: ProcessConfig, root: nat)
    requires Kept(s) && pid !in s.os
    requires who == Client(Newborn(s)) || (who == Restarter && s.handler.Respawning?)
    requires s' == Launch(s, who, pid, config, root).(handler := if who == Restarter then Placing else s.handler)
    ensures Kept(s')
  {
    var b := Birth(pid, config, root);
    var f := Flight(config, pid, Newborn(s), root, Spawned);
    ClientIsFresh(s);
    BirthKeepsRecords(s, b);
    PastAfterBirth(s.past, b);
    NewFlightIsRecorded(s, who, f, b);
    assert Records(s');
    NewFlightKeepsHolders(s, who, f);
    assert Holders(s');
    BirthKeepsSources(s, b);
    LaunchKeepsSources(s, who, f, b);
  }

  lemma PastAfterBirth(past: Past, b: Birth)
    requires PastRecorded(past)
    ensures PastRecorded(past.(births := past.births + [b]))
    ensures PastRecorded(past.(births := past.births + [b], leaked := past.leaked + {|past.births|}))
  {
  }

  lemma NewFlightIsRecorded(s: State, who: Who, f: Flight, b: Birth)
    requires f == Flight(b.config, b.pid, Newborn(s), b.root, Spawned)
    requires FlightsRecorded(s.past.births + [b], s.flights)
    ensures FlightsRecorded(s.past.births + [b], s.flights[who := f])
  {
  }

  lemma ClientIsFresh(s: State)
    requires Records(s) && Holders(s)
    ensures Client(Newborn(s)) !in s.flights
    ensures s.handler != Placing ==> Restarter !in s.flights
  {
    forall w | w in s.flights ensures s.flights[w].child < Newborn(s) {
      assert Recorded(s.past.births, s.flights[w].child,
                      Birth(s.flights[w].pid, s.flights[w].config, s.flights[w].root));
    }
  }

  lemma LeakKeepsKept(s: State, pid: Pid, config: ProcessConfig, root: nat)
    requires Kept(s) && pid !in s.os
    ensures Kept(Leak(s, pid, config, root))
  {
    var b := Birth(pid, config, root);
    BirthKeepsRecords(s, b);
    BirthKeepsSources(s, b);
    PastAfterBirth(s.past, b);
    forall w | w in s.flights ensures s.flights[w].child != Newborn(s) {
      assert Recorded(s.past.births, s.flights[w].child,
                      Birth(s.flights[w].pid, s.flights[w].config, s.flights[w].root));
    }
  }

  lemma HandlerEndKeepsKept(s: State, panicked: bool)
    requires Kept(s) && s.handler != Placing
    ensures Kept(HandlerEnds(s, panicked))
  {
  }

  // ----- dropping or advancing a flight, dropping an entry -----

  ghost predicate SameChild(f: Flight, g: Flight) {
    g.child == f.child && g.pid == f.pid && g.config == f.config && g.root == f.root
    && (Watched(f) ==> Watched(g))
  }

  ghost predicate FlightsShrink(flights: map<Who, Flight>, flights': map<Who, Flight>) {
    forall w :: w in flights' ==> w in flights && SameChild(flights[w], flights'[w])
  }

  lemma ShrinkKeepsFlights(s: State, flights': map<Who, Flight>)
    requires Kept(s) && FlightsShrink(s.flights, flights')
    ensures FlightsRecorded(s.past.births, flights') && FlightsDistinct(flights') && FlightsUnplaced(flights', s.past)
  {
    forall w | w in flights'
      ensures Recorded(s.past.births, flights'[w].child,
                       Birth(flights'[w].pid, flights'[w].config, flights'[w].root)) {
      assert SameChild(s.flights[w], flights'[w]);
    }
    forall w, v | w in flights' && v in flights' && flights'[w].child == flights'[v].child ensures w == v {
      assert SameChild(s.flights[w], flights'[w]) && SameChild(s.flights[v], flights'[v]);
    }
    forall w | w in flights'
      ensures flights'[w].child == s.flights[w].child && (w.Client? ==> w.child == flights'[w].child) {
      assert SameChild(s.flights[w], flights'[w]);
    }
  }

  lemma ShrinkKeepsEarly(s: State, flights': map<Who, Flight>)
    requires Sources(s) && FlightsShrink(s.flights, flights')
    ensures EarlyKnown(s.past.births, s.os, flights')
    ensures EarlyUnwatched(flights', s.runtime.lifecycle.queue, s.monitors)
  {
    forall w | w in flights' && !Watched(flights'[w])
      ensures Known(s.past.births, s.os, flights'[w].child)
              && Unwatched(s.runtime.lifecycle.queue, s.monitors, flights'[w].child) {
      assert SameChild(s.flights[w], flights'[w]);
    }
  }

  lemma RuntimeKeepsMonitors(r: Runtime, q: Runtime, monitors: map<TaskId, Monitor>)
    requires MonitorsReceived(r, monitors) && RuntimeGrows(r, q)
    ensures MonitorsReceived(q, monitors)
  {
    forall id | id in monitors ensures id in q.table.tasks && q.table.tasks[id].pid == monitors[id].pid
                                       && q.table.tasks[id].ty == Process {
      assert SameTask(r.table.tasks[id], q.table.tasks[id]);
    }
  }

  /** No task is lost or changes pid or type, and nothing is received. */
  ghost predicate RuntimeGrows(r: Runtime, q: Runtime) {
    && q.lifecycle.consumed == r.lifecycle.consumed
    && (forall i :: i in r.table.tasks ==> i in q.table.tasks && SameTask(r.table.tasks[i], q.table.tasks[i]))
  }

  lemma PostGrows(r: Runtime, ty: TaskType, f: Flight, sent: bool)
    requires Agree(r.table)
    ensures RuntimeGrows(r, Post(r, ty, f, sent))
    ensures Post(r, ty, f, sent).lifecycle.queue ==
            if ty == Process && sent then r.lifecycle.queue + [Message(r.table.next, f.pid, f.config.name, f.child)]
            else r.lifecycle.queue
  {
  }

  lemma KillGrows(r: Runtime, pid: Pid)
    ensures RuntimeGrows(r, KillTasks(r, pid))
    ensures KillTasks(r, pid).lifecycle == r.lifecycle
  {
  }

  /** The general form of every step that neither forks, nor reaps, nor moves a process message. */
  lemma ShrinkKeepsKept(s: State, s': State)
    requires Kept(s)
    requires s'.past.births == s.past.births && s'.past.inserted == s.past.inserted && s'.past.leaked == s.past.leaked
    requires s'.os == s.os && s'.monitors == s.monitors && s'.sending == s.sending
    requires FlightsShrink(s.flights, s'.flights) && HandlerOwns(s'.flights, s'.handler)
    requires Apart(s.past, s'.condemned, s'.flights, s'.entries)
    requires s'.entries.Keys <= s.entries.Keys && forall n :: n in s'.entries ==> s.entries[n] == s'.entries[n]
    requires RuntimeGrows(s.runtime, s'.runtime) && s'.runtime.lifecycle.queue == s.runtime.lifecycle.queue
    ensures Kept(s')
  {
    ShrinkKeepsFlights(s, s'.flights);
    ShrinkKeepsEarly(s, s'.flights);
    RuntimeKeepsMonitors(s.runtime, s'.runtime, s.monitors);
    ShrinkKeepsEntries(s.past.births, s.entries, s'.entries);
    assert PastRecorded(s'.past) && FlightsUnplaced(s'.flights, s'.past);
  }

  lemma ShrinkKeepsEntries(births: seq<Birth>, entries: map<string, Entry>, entries': map<string, Entry>)
    requires EntriesRecorded(births, entries) && EntriesDistinct(entries)
    requires entries'.Keys <= entries.Keys && forall n :: n in entries' ==> entries[n] == entries'[n]
    ensures EntriesRecorded(births, entries') && EntriesDistinct(entries')
  {
    forall n | n in entries'
      ensures n in entries && Recorded(births, entries'[n].child,
                                       Birth(entries'[n].pid, entries'[n].config, entries'[n].root)) {
      assert n in entries'.Keys;
    }
  }

  lemma AdvanceStaysApart(s: State, who: Who, stage: Stage, q: Runtime)
    requires Apart(s.past, s.condemned, s.flights, s.entries) && who in s.flights
    ensures Apart(s.past, s.condemned, Advance(s, who, stage, q).flights, s.entries)
  {
  }

  lemma AdvanceKeepsKept(s: State, who: Who, stage: Stage, q: Runtime)
    requires Kept(s) && who in s.flights && (Watched(s.flights[who]) ==> stage == Measured)
    requires RuntimeGrows(s.runtime, q) && q.lifecycle.queue == s.runtime.lifecycle.queue
    ensures Kept(Advance(s, who, stage, q))
  {
    AdvanceStaysApart(s, who, stage, q);
    ShrinkKeepsKept(s, Advance(s, who, stage, q));
  }

  lemma DropKeepsKept(s: State, who: Who)
    requires Kept(s) && who in s.flights
    ensures Kept(Drop(s, who))
  {
    GrowsAfterNothing(s.runtime);
    assert HandlerOwns(Drop(s, who).flights, Drop(s, who).handler);
    ShrinkKeepsKept(s, Drop(s, who));
  }

  lemma GrowsAfterNothing(r: Runtime)
    ensures RuntimeGrows(r, r)
  {
  }

  /** A child dropped from its flight has no other holder. */
  lemma GiveUpStaysApart(s: State, who: Who, r: Runtime)
    requires Records(s) && Holders(s) && EntriesInserted(s.entries, s.past.inserted) && who in s.flights
    ensures var s' := GiveUp(s, who, r); Apart(s.past, s'.condemned, s'.flights, s'.entries)
  {
    var f := s.flights[who];
    assert Recorded(s.past.births, f.child, Birth(f.pid, f.config, f.root));
    forall n | n in s.entries ensures s.entries[n].child != f.child {
      assert s.entries[n] in s.past.inserted;
    }
  }

  lemma GiveUpKeepsKept(s: State, who: Who, r: Runtime)
    requires Kept(s) && EntriesInserted(s.entries, s.past.inserted) && who in s.flights
    requires RuntimeGrows(s.runtime, r) && r.lifecycle.queue == s.runtime.lifecycle.queue
    ensures Kept(GiveUp(s, who, r))
  {
    GiveUpStaysApart(s, who, r);
    assert HandlerOwns(GiveUp(s, who, r).flights, GiveUp(s, who, r).handler);
    ShrinkKeepsKept(s, GiveUp(s, who, r));
  }

  // ----- the process submission hands the child over from its flight to a message -----

  lemma HandOverKeepsEarly(s: State, who: Who, g: Flight, sent: Message)
    requires Kept(s) && At(s, who, Logged) && sent.child == s.flights[who].child == g.child && Watched(g)
    ensures EarlyUnwatched(s.flights[who := g], s.runtime.lifecycle.queue + [sent], s.monitors)
    ensures EarlyKnown(s.past.births, s.os, s.flights[who := g])
  {
    var flights, queue := s.flights[who := g], s.runtime.lifecycle.queue + [sent];
    forall w | w in flights && !Watched(flights[w]) ensures Unwatched(queue, s.monitors, flights[w].child) {
      assert Unwatched(s.runtime.lifecycle.queue, s.monitors, s.flights[w].child);
      assert s.flights[w].child != s.flights[who].child;
    }
  }

  lemma HandOverKeepsAnswers(s: State, who: Who, sent: Message)
    requires Kept(s) && At(s, who, Logged)
    requires var f := s.flights[who]; Awaited(sent) == Monitor(f.pid, f.config.name, f.child)
    ensures QueueAnswers(s.past.births, s.os, s.runtime.lifecycle.queue + [sent])
  {
    var f := s.flights[who];
    assert Recorded(s.past.births, f.child, Birth(f.pid, f.config, f.root));
    assert Known(s.past.births, s.os, f.child);
  }

  lemma MonitoredKeepsKept(s: State, who: Who, q: Runtime, sent: Message)
    requires Kept(s) && At(s, who, Logged) && RuntimeGrows(s.runtime, q)
    requires var f := s.flights[who]; Awaited(sent) == Monitor(f.pid, f.config.name, f.child)
    requires q.lifecycle.queue == s.runtime.lifecycle.queue + [sent]
    ensures Kept(Advance(s, who, Monitored, q))
  {
    var flights := Advance(s, who, Monitored, q).flights;
    HandOverKeepsEarly(s, who, flights[who], sent);
    HandOverKeepsAnswers(s, who, sent);
    RuntimeKeepsMonitors(s.runtime, q, s.monitors);
    ShrinkKeepsFlights(s, flights);
    AdvanceStaysApart(s, who, Monitored, q);
  }

  lemma SubmitKeepsKept(s: State, who: Who, ty: TaskType, sent: bool, stage: Stage)
    requires Kept(s) && EntriesInserted(s.entries, s.past.inserted) && Agree(s.runtime.table)
    requires (ty == Process && At(s, who, Logged) && stage == Monitored)
             || (ty == Metrics && At(s, who, Monitored) && stage == Measured)
    ensures Kept(DoSubmit(s, who, ty, sent, stage))
  {
    var f := s.flights[who];
    PostGrows(s.runtime, ty, f, true);
    PostGrows(s.runtime, ty, f, false);
    if ListsType(s.runtime.table, f.pid, ty) {
      GrowsAfterNothing(s.runtime);
      GiveUpKeepsKept(s, who, s.runtime);
    } else if !sent {
      GiveUpKeepsKept(s, who, Post(s.runtime, ty, f, false));
    } else if ty == Metrics {
      AdvanceKeepsKept(s, who, stage, Post(s.runtime, ty, f, true));
    } else {
      MonitoredKeepsKept(s, who, Post(s.runtime, ty, f, true),
                         Message(s.runtime.table.next, f.pid, f.config.name, f.child));
    }
  }

  // ----- insertion -----

  lemma InsertKeepsEntries(births: seq<Birth>, entries: map<string, Entry>, e: Entry)
    requires EntriesRecorded(births, entries) && EntriesDistinct(entries)
    requires Recorded(births, e.child, Birth(e.pid, e.config, e.root))
    requires forall n :: n in entries ==> entries[n].child != e.child
    ensures EntriesRecorded(births, entries[e.config.name := e]) && EntriesDistinct(entries[e.config.name := e])
  {
  }

  lemma InsertKeepsPast(past: Past, e: Entry)
    requires PastRecorded(past) && e.child < |past.births| && e.child !in past.leaked
    ensures PastRecorded(past.(inserted := past.inserted + [e]))
  {
  }

  lemma InsertKeepsUnplaced(s: State, who: Who, e: Entry)
    requires Kept(s) && who in s.flights && e.child == s.flights[who].child
    ensures FlightsUnplaced(s.flights - {who}, s.past.(inserted := s.past.inserted + [e]))
  {
  }

  lemma InsertKeepsKept(s: State, who: Who)
    requires Kept(s) && Admitted(s) && At(s, who, Measured)
    ensures Kept(DoInsert(s, who))
  {
    var f := s.flights[who];
    var e := Entry(f.config, f.pid, f.child, f.root);
    assert Recorded(s.past.births, f.child, Birth(f.pid, f.config, f.root));
    forall n | n in s.entries ensures s.entries[n].child != f.child {
      assert s.entries[n] in s.past.inserted;
    }
    InsertKeepsEntries(s.past.births, s.entries, e);
    InsertKeepsPast(s.past, e);
    InsertKeepsUnplaced(s, who, e);
    ShrinkKeepsFlights(s, s.flights - {who});
    ShrinkKeepsEarly(s, s.flights - {who});
    InsertStaysApart(s, who);
  }

  lemma InsertStaysApart(s: State, who: Who)
    requires Apart(s.past, s.condemned, s.flights, s.entries) && who in s.flights
    ensures var s' := DoInsert(s, who); Apart(s.past, s.condemned, s'.flights, s'.entries)
  {
  }

  // ----- reception -----

  lemma RecvProcessKeepsKept(s: State)
    requires Kept(s) && Delivered(s.runtime) && Enabled(s, Recv(Process))
    ensures Kept(DoRecv(s, Process))
  {
    var s' := DoRecv(s, Process);
    var m := s.runtime.lifecycle.queue[0];
    assert m in s.runtime.lifecycle.queue;
    assert m.id == Flow(s.runtime.lifecycle)[|s.runtime.lifecycle.consumed|];
    assert m.id in Flow(s.runtime.lifecycle);
    assert forall x :: x in s'.runtime.lifecycle.queue ==> x in s.runtime.lifecycle.queue;
    assert MonitorsReceived(s'.runtime, s'.monitors);
    MovingMessageKeepsEarly(s, m, s'.runtime.lifecycle.queue);
  }

  lemma MovingMessageKeepsEarly(s: State, m: Message, queue: seq<Message>)
    requires Sources(s) && m in s.runtime.lifecycle.queue
    requires forall x :: x in queue ==> x in s.runtime.lifecycle.queue
    ensures EarlyUnwatched(s.flights, queue, s.monitors[m.id := Awaited(m)])
    ensures QueueAnswers(s.past.births, s.os, queue)
    ensures MonitorsAnswer(s.past.births, s.os, s.monitors[m.id := Awaited(m)])
  {
    forall w | w in s.flights && !Watched(s.flights[w])
      ensures Unwatched(queue, s.monitors[m.id := Awaited(m)], s.flights[w].child) {
      assert Unwatched(s.runtime.lifecycle.queue, s.monitors, s.flights[w].child);
    }
  }

  lemma RecvKeepsKept(s: State, ty: TaskType)
    requires Kept(s) && Delivered(s.runtime) && Enabled(s, Recv(ty))
    ensures Kept(DoRecv(s, ty))
  {
    if ty == Process {
      RecvProcessKeepsKept(s);
    } else {
      ShrinkKeepsKept(s, DoRecv(s, ty));
    }
  }

  // ----- reaping -----

  lemma QueuedIsNotConsumed(c: Channel, m: Message, id: TaskId)
    requires Increasing(Flow(c)) && m in c.queue && id in c.consumed
    ensures m.id != id && m.id in Flow(c)
  {
    var k :| 0 <= k < |c.queue| && c.queue[k] == m;
    var l :| 0 <= l < |c.consumed| && c.consumed[l] == id;
    assert Flow(c)[l] < Flow(c)[|c.consumed| + k];
    assert Flow(c)[|c.consumed| + k] == m.id;
  }

  /** Only the one process task of a pid can reap it, so nobody else waits for the reaped child. */
  lemma MessageWaitsElsewhere(s: State, id: TaskId, m: Message)
    requires Kept(s) && Delivered(s.runtime) && OnePerPid(s.runtime.table)
    requires id in s.monitors && m in s.runtime.lifecycle.queue
    ensures m.pid != s.monitors[id].pid
  {
    QueuedIsNotConsumed(s.runtime.lifecycle, m, id);
    var tasks := s.runtime.table.tasks;
    assert tasks[m.id].pid == m.pid && tasks[m.id].ty == Process;
    assert tasks[id].pid == s.monitors[id].pid && tasks[id].ty == Process;
  }

  lemma MonitorWaitsElsewhere(s: State, id: TaskId, j: TaskId)
    requires Kept(s) && OnePerPid(s.runtime.table) && id in s.monitors && j in s.monitors && j != id
    ensures s.monitors[j].pid != s.monitors[id].pid
  {
    var tasks := s.runtime.table.tasks;
    assert tasks[j].pid == s.monitors[j].pid && tasks[j].ty == Process;
    assert tasks[id].pid == s.monitors[id].pid && tasks[id].ty == Process;
  }

  lemma ReapKeepsOthers(births: seq<Birth>, os: map<Pid, Child>, pid: Pid, m: Monitor)
    requires Answers(births, os, m) && m.pid != pid
    ensures Answers(births, os - {pid}, m)
  {
  }

  lemma ReapKeepsSenders(s: State, id: TaskId)
    requires OsRecorded(s.past.births, s.os) && SendersReaped(s.past.births, s.os, s.sending)
    requires id in s.monitors && Answers(s.past.births, s.os, s.monitors[id])
    ensures var s' := DoReap(s, id); SendersReaped(s.past.births, s'.os, s'.sending)
  {
    var s' := DoReap(s, id);
    forall j | j in s'.sending ensures Spoke(s.past.births, s'.os, s'.sending[j]) {
      assert j != id ==> Spoke(s.past.births, s.os, s.sending[j]);
    }
  }

  lemma ReapKeepsSources(s: State, id: TaskId)
    requires Kept(s) && Delivered(s.runtime) && OnePerPid(s.runtime.table) && Enabled(s, Reap(id))
    ensures Sources(DoReap(s, id))
  {
    var s' := DoReap(s, id);
    ReapKeepsAnswers(s, id);
    ReapKeepsEarly(s, id);
    assert Answers(s.past.births, s.os, s.monitors[id]);
    ReapKeepsSenders(s, id);
    assert MonitorsReceived(s'.runtime, s'.monitors);
  }

  lemma ReapKeepsAnswers(s: State, id: TaskId)
    requires Kept(s) && Delivered(s.runtime) && OnePerPid(s.runtime.table) && id in s.monitors
    ensures var s' := DoReap(s, id);
            && QueueAnswers(s.past.births, s'.os, s.runtime.lifecycle.queue)
            && MonitorsAnswer(s.past.births, s'.os, s'.monitors)
  {
    var s' := DoReap(s, id);
    var pid := s.monitors[id].pid;
    forall m | m in s.runtime.lifecycle.queue ensures Answers(s.past.births, s'.os, Awaited(m)) {
      MessageWaitsElsewhere(s, id, m);
      ReapKeepsOthers(s.past.births, s.os, pid, Awaited(m));
    }
    forall j | j in s'.monitors ensures Answers(s.past.births, s'.os, s'.monitors[j]) {
      MonitorWaitsElsewhere(s, id, j);
      ReapKeepsOthers(s.past.births, s.os, pid, s.monitors[j]);
    }
  }

  lemma ReapKeepsEarly(s: State, id: TaskId)
    requires Kept(s) && id in s.monitors
    ensures var s' := DoReap(s, id);
            EarlyKnown(s.past.births, s'.os, s.flights)
            && EarlyUnwatched(s.flights, s.runtime.lifecycle.queue, s'.monitors)
  {
    var pid := s.monitors[id].pid;
    assert Answers(s.past.births, s.os, s.monitors[id]);
    forall w | w in s.flights && !Watched(s.flights[w])
      ensures Known(s.past.births, s.os - {pid}, s.flights[w].child)
              && Unwatched(s.runtime.lifecycle.queue, s.monitors - {id}, s.flights[w].child) {
      assert Unwatched(s.runtime.lifecycle.queue, s.monitors, s.flights[w].child);
      assert Known(s.past.births, s.os, s.flights[w].child);
    }
  }

  lemma ReapKeepsKept(s: State, id: TaskId)
    requires Kept(s) && Delivered(s.runtime) && OnePerPid(s.runtime.table) && Enabled(s, Reap(id))
    ensures Kept(DoReap(s, id))
  {
    ReapKeepsSources(s, id);
    assert OsRecorded(s.past.births, DoReap(s, id).os);
  }

  lemma SendKeepsKept(s: State, id: TaskId)
    requires Kept(s) && id in s.sending
    ensures Kept(DoSend(s, id))
  {
    assert SendersReaped(s.past.births, s.os, DoSend(s, id).sending);
  }

  lemma ExitKeepsKept(s: State, pid: Pid)
    requires Kept(s) && pid in s.os
    ensures Kept(DoExit(s, pid))
  {
    var births, os := s.past.births, DoExit(s, pid).os;
    assert OsRecorded(births, os);
    forall c ensures Known(births, s.os, c) <==> Known(births, os, c) {
    }
    forall m | m in s.runtime.lifecycle.queue ensures Answers(births, os, Awaited(m)) {
      assert Answers(births, s.os, Awaited(m));
    }
    forall id | id in s.monitors ensures Answers(births, os, s.monitors[id]) {
      assert Answers(births, s.os, s.monitors[id]);
    }
    forall id | id in s.sending ensures Spoke(births, os, s.sending[id]) {
      assert Spoke(births, s.os, s.sending[id]);
    }
  }

  lemma AttachKeepsKept(s: State, ty: TaskType)
    requires Kept(s) && Delivered(s.runtime) && Enabled(s, Attach(ty))
    ensures Kept(Next(s, Attach(ty)))
  {
    AttachGrows(s.runtime, ty);
    ShrinkKeepsKept(s, Next(s, Attach(ty)));
  }

  lemma AttachGrows(r: Runtime, ty: TaskType)
    requires Delivered(r) && Chan(r, ty).held.Some?
    ensures RuntimeGrows(r, Attached(r, ty)) && Attached(r, ty).lifecycle.queue == r.lifecycle.queue
  {
    var c := Chan(r, ty);
    assert c.held.value in Flow(c);
    WithHandlesEffect(r.table, c.held.value, SpawnedHandles(ty, c.held.value));
  }

  lemma MarkKeepsKept(s: State, id: TaskId, reason: string)
    requires Kept(s)
    ensures Kept(s.(runtime := Marked(s.runtime, id, reason)))
  {
    ShrinkKeepsKept(s, s.(runtime := Marked(s.runtime, id, reason)));
  }

  lemma MonitorEndKeepsKept(s: State, id: TaskId)
    requires Kept(s)
    ensures Kept(s.(monitors := s.monitors - {id}))
  {
    var monitors := s.monitors - {id};
    forall w | w in s.flights && !Watched(s.flights[w])
      ensures Unwatched(s.runtime.lifecycle.queue, monitors, s.flights[w].child) {
      assert Unwatched(s.runtime.lifecycle.queue, s.monitors, s.flights[w].child);
    }
  }

  lemma ForkStepKeepsKept(s: State, step: Step)
    requires Kept(s) && Enabled(s, step) && (step.Start? || step.Refork?)
    ensures Kept(Next(s, step))
  {
    match step
    case Start(config, fork) =>
      if config.name !in s.entries {
        match fork
        case Refused =>
        case StreamsFailed(pid) => LeakKeepsKept(s, pid, config, Newborn(s));
        case Forked(pid) => LaunchKeepsKept(s, Next(s, step), Client(Newborn(s)), pid, config, Newborn(s));
      }
    case Refork(fork) =>
      match fork
      case Refused => HandlerEndKeepsKept(s, false);
      case StreamsFailed(pid) =>
        LeakKeepsKept(s, pid, s.handler.config, s.handler.root);
        HandlerEndKeepsKept(Leak(s, pid, s.handler.config, s.handler.root), false);
      case Forked(pid) => LaunchKeepsKept(s, Next(s, step), Restarter, pid, s.handler.config, s.handler.root);
  }

  lemma StopStaysApart(s: State, name: string)
    requires Records(s) && Holders(s) && EntriesInserted(s.entries, s.past.inserted)
    ensures var s' := DoStop(s, name); Apart(s.past, s'.condemned, s'.flights, s'.entries)
  {
    if name in s.entries {
      var e := s.entries[name];
      assert Recorded(s.past.births, e.child, Birth(e.pid, e.config, e.root)) && e in s.past.inserted;
    }
  }

  lemma StopKeepsKept(s: State, name: string)
    requires Kept(s) && EntriesInserted(s.entries, s.past.inserted)
    ensures Kept(DoStop(s, name))
  {
    if name in s.entries {
      GrowsAfterNothing(s.runtime);
      StopStaysApart(s, name);
      ShrinkKeepsKept(s, DoStop(s, name));
    }
  }

  lemma FinishKeepsKept(s: State, child: nat)
    requires Kept(s) && child in s.condemned
    ensures Kept(DoFinish(s, child))
  {
    SignalKeepsKept(s, s.condemned[child]);
    KilledKeepsKept(Signal(s, s.condemned[child]), child, s.condemned[child]);
  }

  lemma SignalKeepsKept(s: State, pid: Pid)
    requires Kept(s)
    ensures Kept(Signal(s, pid))
  {
  }

  lemma KilledKeepsKept(s: State, child: nat, pid: Pid)
    requires Kept(s)
    ensures Kept(s.(condemned := s.condemned - {child}, runtime := KillTasks(s.runtime, pid)))
  {
    KillGrows(s.runtime, pid);
    assert Apart(s.past, s.condemned - {child}, s.flights, s.entries);
    ShrinkKeepsKept(s, s.(condemned := s.condemned - {child}, runtime := KillTasks(s.runtime, pid)));
  }

  lemma ReceiveKeepsKept(s: State)
    requires Kept(s) && Enabled(s, Receive)
    ensures Kept(DoReceive(s))
  {
    var name := s.restarts[0];
    if name in s.entries {
      KillGrows(s.runtime, s.entries[name].pid);
      ShrinkKeepsKept(s, DoReceive(s));
    } else {
      HandlerEndKeepsKept(s, true);
    }
  }

  /** The steps of `start` and of the handler's respawning. */
  lemma FlightStepKeepsKept(s: State, step: Step)
    requires Kept(s) && Agree(s.runtime.table) && Admitted(s) && Enabled(s, step)
    requires step.Abandon? || step.SubmitLog? || step.SubmitMonitor? || step.SubmitMetrics? || step.Insert?
    ensures Kept(Next(s, step))
  {
    match step
    case Abandon(who) => AbandonKeepsKept(s, who);
    case SubmitLog(who, sent) => SubmitLogKeepsKept(s, who, sent);
    case SubmitMonitor(who, sent) => SubmitKeepsKept(s, who, Process, sent, Monitored);
    case SubmitMetrics(who, sent) => SubmitKeepsKept(s, who, Metrics, sent, Measured);
    case Insert(who) => InsertKeepsKept(s, who);
  }

  lemma RemovalStepKeepsKept(s: State, step: Step)
    requires Kept(s) && EntriesInserted(s.entries, s.past.inserted) && Enabled(s, step)
    requires step.Stop? || step.Finish? || step.Receive? || step.Discard?
    ensures Kept(Next(s, step))
  {
    match step
    case Stop(name) => StopKeepsKept(s, name);
    case Finish(child) => FinishKeepsKept(s, child);
    case Receive => ReceiveKeepsKept(s);
    case Discard => DiscardKeepsKept(s);
  }

  lemma MonitorStepKeepsKept(s: State, step: Step)
    requires Kept(s) && Delivered(s.runtime) && OnePerPid(s.runtime.table) && Enabled(s, step)
    requires step.Reap? || step.Send? || step.Exit?
    ensures Kept(Next(s, step))
  {
    match step
    case Reap(id) => ReapKeepsKept(s, id);
    case Send(id) => SendKeepsKept(s, id);
    case Exit(pid) => ExitKeepsKept(s, pid);
  }

  lemma TaskStepKeepsKept(s: State, step: Step)
    requires Kept(s) && Delivered(s.runtime) && Enabled(s, step)
    requires step.Recv? || step.Attach? || step.MonitorFails? || step.TaskFails?
    ensures Kept(Next(s, step))
  {
    match step
    case Recv(ty) => RecvKeepsKept(s, ty);
    case Attach(ty) => AttachKeepsKept(s, ty);
    case _ => FailureKeepsKept(s, step);
  }

  lemma StepKeepsKept(s: State, step: Step)
    requires Kept(s) && Delivered(s.runtime) && Admitted(s) && Enabled(s, step)
    ensures Kept(Next(s, step))
  {
    if step.Start? || step.Refork? {
      ForkStepKeepsKept(s, step);
    } else if step.Stop? || step.Finish? || step.Receive? || step.Discard? {
      RemovalStepKeepsKept(s, step);
    } else if step.Abandon? || step.SubmitLog? || step.SubmitMonitor? || step.SubmitMetrics? || step.Insert? {
      FlightStepKeepsKept(s, step);
    } else if step.Reap? || step.Send? || step.Exit? {
      MonitorStepKeepsKept(s, step);
    } else {
      TaskStepKeepsKept(s, step);
    }
  }

  lemma AbandonKeepsKept(s: State, who: Who)
    requires Kept(s) && who in s.flights
    ensures Kept(DoAbandon(s, who))
  {
    SignalKeepsKept(s, s.flights[who].pid);
    DropKeepsKept(Signal(s, s.flights[who].pid), who);
  }

  lemma SubmitLogKeepsKept(s: State, who: Who, sent: bool)
    requires Kept(s) && Agree(s.runtime.table) && At(s, who, Spawned)
    ensures Kept(DoSubmitLog(s, who, sent))
  {
    PostGrows(s.runtime, Logging, s.flights[who], sent);
    AdvanceKeepsKept(s, who, Logged, Post(s.runtime, Logging, s.flights[who], sent));
  }

  lemma FailureKeepsKept(s: State, step: Step)
    requires Kept(s) && Enabled(s, step) && (step.MonitorFails? || step.TaskFails?)
    ensures Kept(Next(s, step))
  {
    MarkKeepsKept(s, step.id, step.reason);
    if step.MonitorFails? {
      MonitorEndKeepsKept(s.(runtime := Marked(s.runtime, step.id, step.reason)), step.id);
    }
  }

  lemma DiscardKeepsKept(s: State)
    requires Kept(s) && s.handler.Discarding?
    ensures Kept(DoDiscard(s))
  {
    GrowsAfterNothing(s.runtime);
    ShrinkKeepsKept(s, DoDiscard(s));
  }

  /** The invariants that hold in every run. */
  ghost predicate Sound(s: State) {
    Delivered(s.runtime) && Admitted(s) && Kept(s)
  }

  lemma InitIsKept()
    ensures Kept(INIT)
  {
  }

  lemma StepKeepsSound(s: State, step: Step)
    requires Sound(s) && Enabled(s, step)
    ensures Sound(Next(s, step))
  {
    StepKeepsDelivered(s, step);
    StepKeepsAdmitted(s, step);
    StepKeepsKept(s, step);
  }

  lemma {:induction false} AlwaysSound(steps: seq<Step>, s: State)
    requires Reaches(steps, s)
    ensures Sound(s)
  {
    AlwaysAdmitted(steps, s);
    if steps == [] {
      InitIsKept();
    } else {
      var n := |steps| - 1;
      var before := Exec(INIT, steps[..n]).value;
      AlwaysSound(steps[..n], before);
      StepKeepsKept(before, steps[n]);
    }
  }
}
