/**
 The restart budget: however the steps interleave, a process admitted with
 `Capped(n)` is incarnated at most max(1, n) times, each incarnation carries the
 budget its predecessors left, and the chain is ended by its policy only when
 the budget is used up.
 */
module Budget {
  import opened Tasks
  import opened Config
  import opened Machine
  import opened Admission
  import opened Children

  /** How many children of the chain of restarts that began with child `root` have been forked. */
  function Incarnations(births: seq<Birth>, root: nat): nat {
    if births == [] then 0
    else
      var n := |births| - 1;
      Incarnations(births[..n], root) + if births[n].root == root then 1 else 0
  }

  /** The policy after `k` restarts. */
  function Spent(policy: RestartPolicy, k: nat): RestartPolicy {
    match policy
    case Capped(limit) => Capped(if k <= limit then limit - k else 0)
    case NoRestart => NoRestart
    case Infinite => Infinite
  }

  /** Does the policy allow `k` incarnations in all? */
  predicate Allows(policy: RestartPolicy, k: nat) {
    match policy
    case Capped(limit) => k <= 1 || k <= limit
    case NoRestart => k <= 1
    case Infinite => true
  }

  /** A child carries its root's configuration with the budget spent by the incarnations before it. */
  ghost predicate Follows(births: seq<Birth>, root: nat, config: ProcessConfig, before: nat) {
    && root < |births|
    && births[root].root == root
    && config == births[root].config.(restart := Spent(births[root].config.restart, before))
    && Allows(births[root].config.restart, before + 1)
  }

  ghost predicate BirthFollows(births: seq<Birth>, c: nat)
    requires c < |births|
  {
    && births[c].root <= c
    && Follows(births, births[c].root, births[c].config, Incarnations(births[..c], births[c].root))
  }

  ghost predicate BirthsFollow(births: seq<Birth>) {
    forall c :: 0 <= c < |births| ==> BirthFollows(births, c)
  }

  ghost predicate Latest(births: seq<Birth>, c: nat) {
    && c < |births|
    && forall d :: c < d < |births| ==> births[d].root != births[c].root
  }

  ghost predicate FlightsLatest(births: seq<Birth>, flights: map<Who, Flight>) {
    forall w :: w in flights ==> Latest(births, flights[w].child)
  }

  ghost predicate EntriesLatest(births: seq<Birth>, entries: map<string, Entry>) {
    forall n :: n in entries ==> Latest(births, entries[n].child)
  }

  ghost predicate RootUnheld(flights: map<Who, Flight>, entries: map<string, Entry>, root: nat) {
    && (forall w :: w in flights ==> flights[w].root != root)
    && (forall n :: n in entries ==> entries[n].root != root)
  }

  ghost predicate HandlerReady(s: State) {
    s.handler.Respawning? ==>
      && Follows(s.past.births, s.handler.root, s.handler.config, Incarnations(s.past.births, s.handler.root))
      && RootUnheld(s.flights, s.entries, s.handler.root)
  }

  ghost predicate Budgeted(s: State) {
    && BirthsFollow(s.past.births)
    && FlightsLatest(s.past.births, s.flights)
    && EntriesLatest(s.past.births, s.entries)
    && HandlerReady(s)
  }

  // ----- counting -----

  lemma {:induction false} RootsAreOld(births: seq<Birth>, root: nat)
    requires forall c :: 0 <= c < |births| ==> births[c].root < root
    ensures Incarnations(births, root) == 0
  {
    if births != [] {
      RootsAreOld(births[..|births| - 1], root);
    }
  }

  lemma {:induction false} LatestEndsTheCount(births: seq<Birth>, c: nat)
    requires Latest(births, c)
    ensures Incarnations(births, births[c].root) == Incarnations(births[..c], births[c].root) + 1
  {
    var n := |births| - 1;
    if c < n {
      LatestEndsTheCount(births[..n], c);
      assert births[..n][..c] == births[..c];
    }
  }

  lemma {:induction false} CountStaysWithin(births: seq<Birth>, root: nat, m: nat)
    requires BirthsFollow(births) && root < |births| && m <= |births|
    ensures Allows(births[root].config.restart, Incarnations(births[..m], root))
  {
    if m != 0 {
      CountStaysWithin(births, root, m - 1);
      assert births[..m][..m - 1] == births[..m - 1];
      assert BirthFollows(births, m - 1);
    }
  }

  // ----- a birth -----

  lemma BirthKeepsFollow(births: seq<Birth>, b: Birth)
    requires BirthsFollow(births)
    requires b.root <= |births| && Follows(births + [b], b.root, b.config, Incarnations(births, b.root))
    ensures BirthsFollow(births + [b])
  {
    var more := births + [b];
    forall c | 0 <= c < |more| ensures BirthFollows(more, c) {
      if c < |births| {
        assert BirthFollows(births, c);
        assert more[..c] == births[..c];
      } else {
        assert more[..c] == births;
      }
    }
  }

  lemma BirthKeepsLatest(births: seq<Birth>, b: Birth, c: nat)
    requires Latest(births, c) && births[c].root != b.root
    ensures Latest(births + [b], c)
  {
  }

  lemma BirthKeepsHolders(s: State, b: Birth)
    requires Records(s) && Budgeted(s) && RootUnheld(s.flights, s.entries, b.root)
    ensures FlightsLatest(s.past.births + [b], s.flights) && EntriesLatest(s.past.births + [b], s.entries)
  {
    forall w | w in s.flights ensures Latest(s.past.births + [b], s.flights[w].child) {
      var f := s.flights[w];
      assert Recorded(s.past.births, f.child, Birth(f.pid, f.config, f.root));
      BirthKeepsLatest(s.past.births, b, f.child);
    }
    forall n | n in s.entries ensures Latest(s.past.births + [b], s.entries[n].child) {
      var e := s.entries[n];
      assert Recorded(s.past.births, e.child, Birth(e.pid, e.config, e.root));
      BirthKeepsLatest(s.past.births, b, e.child);
    }
  }

  lemma RootsBelow(births: seq<Birth>, c: nat)
    requires BirthsFollow(births) && c < |births|
    ensures births[c].root < |births|
  {
    assert BirthFollows(births, c);
  }

  /** The first child of a chain: nobody has its number as a root yet. */
  lemma FirstBirth(s: State, pid: Pid, config: ProcessConfig)
    requires Records(s) && Budgeted(s)
    ensures var b := Birth(pid, config, Newborn(s)); var births := s.past.births + [b];
            && BirthsFollow(births) && FlightsLatest(births, s.flights) && EntriesLatest(births, s.entries)
            && RootUnheld(s.flights, s.entries, Newborn(s))
            && (s.handler.Respawning? ==>
                  Incarnations(births, s.handler.root) == Incarnations(s.past.births, s.handler.root))
  {
    var b := Birth(pid, config, Newborn(s));
    var births := s.past.births + [b];
    forall c | 0 <= c < |s.past.births| ensures s.past.births[c].root < Newborn(s) {
      RootsBelow(s.past.births, c);
    }
    RootsAreOld(s.past.births, Newborn(s));
    assert births[..|births| - 1] == s.past.births;
    assert config.(restart := Spent(config.restart, 0)) == config;
    BirthKeepsFollow(s.past.births, b);
    forall w | w in s.flights ensures s.flights[w].root != Newborn(s) {
      var f := s.flights[w];
      assert Recorded(s.past.births, f.child, Birth(f.pid, f.config, f.root));
    }
    forall n | n in s.entries ensures s.entries[n].root != Newborn(s) {
      var e := s.entries[n];
      assert Recorded(s.past.births, e.child, Birth(e.pid, e.config, e.root));
    }
    BirthKeepsHolders(s, b);
  }

  lemma NextBirth(s: State, pid: Pid)
    requires Records(s) && Budgeted(s) && s.handler.Respawning?
    ensures var births := s.past.births + [Birth(pid, s.handler.config, s.handler.root)];
            BirthsFollow(births) && FlightsLatest(births, s.flights) && EntriesLatest(births, s.entries)
  {
    var b := Birth(pid, s.handler.config, s.handler.root);
    var births := s.past.births + [b];
    assert births[s.handler.root] == s.past.births[s.handler.root];
    BirthKeepsFollow(s.past.births, b);
    BirthKeepsHolders(s, b);
  }

  lemma StartKeepsBudgeted(s: State, config: ProcessConfig, fork: ForkOutcome)
    requires Kept(s) && Budgeted(s)
    ensures Budgeted(DoStart(s, config, fork))
  {
    if config.name !in s.entries && fork != Refused {
      FirstBirth(s, fork.pid, config);
      var s' := DoStart(s, config, fork);
      assert Latest(s'.past.births, Newborn(s));
      if s.handler.Respawning? {
        assert Follows(s'.past.births, s.handler.root, s.handler.config, Incarnations(s.past.births, s.handler.root));
      }
    }
  }

  lemma ReforkKeepsBudgeted(s: State, fork: ForkOutcome)
    requires Kept(s) && Budgeted(s) && s.handler.Respawning?
    ensures Budgeted(DoRefork(s, fork))
  {
    if fork != Refused {
      NextBirth(s, fork.pid);
      assert Latest(DoRefork(s, fork).past.births, Newborn(s));
    }
  }

  // ----- a request -----

  /** No two holders share a root, because both would hold the latest child of the same chain. */
  lemma OneHolderPerRoot(s: State, name: string)
    requires Kept(s) && Admitted(s) && Budgeted(s) && name in s.entries
    ensures RootUnheld(s.flights, s.entries - {name}, s.entries[name].root)
  {
    var births, e := s.past.births, s.entries[name];
    assert Recorded(births, e.child, Birth(e.pid, e.config, e.root)) && Latest(births, e.child);
    assert e in s.past.inserted;
    forall w | w in s.flights ensures s.flights[w].root != e.root {
      var f := s.flights[w];
      assert Recorded(births, f.child, Birth(f.pid, f.config, f.root)) && Latest(births, f.child);
    }
    forall n | n in s.entries && n != name ensures s.entries[n].root != e.root {
      var d := s.entries[n];
      assert Recorded(births, d.child, Birth(d.pid, d.config, d.root)) && Latest(births, d.child);
    }
  }

  /** `respawn` agrees to go on exactly while the budget of the chain lasts. */
  lemma RespawnSpendsOne(births: seq<Birth>, root: nat, config: ProcessConfig, k: nat)
    requires Follows(births, root, config, k)
    ensures Respawn(config).0 <==> Allows(births[root].config.restart, k + 2)
    ensures Respawn(config).0 ==> Follows(births, root, Respawn(config).1, k + 1)
  {
  }

  lemma EntryFollows(s: State, name: string) returns (k: nat)
    requires Kept(s) && Budgeted(s) && name in s.entries
    ensures Incarnations(s.past.births, s.entries[name].root) == k + 1
    ensures Follows(s.past.births, s.entries[name].root, s.entries[name].config, k)
  {
    var births, e := s.past.births, s.entries[name];
    assert Recorded(births, e.child, Birth(e.pid, e.config, e.root)) && Latest(births, e.child);
    LatestEndsTheCount(births, e.child);
    assert BirthFollows(births, e.child);
    k := Incarnations(births[..e.child], e.root);
  }

  lemma ReceiveKeepsBudgeted(s: State)
    requires Kept(s) && Admitted(s) && Budgeted(s) && Enabled(s, Receive)
    ensures Budgeted(DoReceive(s))
  {
    var name := s.restarts[0];
    if name in s.entries {
      var k := EntryFollows(s, name);
      RespawnSpendsOne(s.past.births, s.entries[name].root, s.entries[name].config, k);
      OneHolderPerRoot(s, name);
    }
  }

  // ----- the other steps -----

  lemma ShrinkKeepsBudgeted(s: State, s': State)
    requires Budgeted(s) && s'.past.births == s.past.births
    requires FlightsShrink(s.flights, s'.flights)
    requires s'.entries.Keys <= s.entries.Keys && forall n :: n in s'.entries ==> s.entries[n] == s'.entries[n]
    requires s'.handler == s.handler || !s'.handler.Respawning?
    ensures Budgeted(s')
  {
    forall w | w in s'.flights ensures SameChild(s.flights[w], s'.flights[w]) {
    }
    forall n | n in s'.entries ensures n in s.entries {
      assert n in s'.entries.Keys;
    }
  }

  lemma InsertKeepsBudgeted(s: State, who: Who)
    requires Budgeted(s) && who in s.flights
    ensures Budgeted(DoInsert(s, who))
  {
  }

  lemma GiveUpKeepsBudgeted(s: State, who: Who, r: Runtime)
    requires Budgeted(s) && who in s.flights
    ensures Budgeted(GiveUp(s, who, r))
  {
    ShrinkKeepsBudgeted(s, GiveUp(s, who, r));
  }

  lemma AdvanceKeepsBudgeted(s: State, who: Who, stage: Stage, r: Runtime)
    requires Budgeted(s) && who in s.flights && (Watched(s.flights[who]) ==> stage == Measured)
    ensures Budgeted(Advance(s, who, stage, r))
  {
    ShrinkKeepsBudgeted(s, Advance(s, who, stage, r));
  }

  lemma SubmitKeepsBudgeted(s: State, who: Who, ty: TaskType, sent: bool, stage: Stage)
    requires Budgeted(s) && who in s.flights
    requires Watched(s.flights[who]) ==> stage == Measured
    ensures Budgeted(DoSubmit(s, who, ty, sent, stage))
  {
    var f := s.flights[who];
    GiveUpKeepsBudgeted(s, who, s.runtime);
    GiveUpKeepsBudgeted(s, who, Post(s.runtime, ty, f, false));
    AdvanceKeepsBudgeted(s, who, stage, Post(s.runtime, ty, f, true));
  }

  lemma AbandonKeepsBudgeted(s: State, who: Who)
    requires Budgeted(s) && who in s.flights
    ensures Budgeted(DoAbandon(s, who))
  {
    ShrinkKeepsBudgeted(s, DoAbandon(s, who));
  }

  lemma StopKeepsBudgeted(s: State, name: string)
    requires Budgeted(s)
    ensures Budgeted(DoStop(s, name))
  {
    ShrinkKeepsBudgeted(s, DoStop(s, name));
  }

  lemma FinishKeepsBudgeted(s: State, child: nat)
    requires Budgeted(s) && child in s.condemned
    ensures Budgeted(DoFinish(s, child))
  {
  }

  lemma DiscardKeepsBudgeted(s: State)
    requires Budgeted(s) && s.handler.Discarding?
    ensures Budgeted(DoDiscard(s))
  {
    ShrinkKeepsBudgeted(s, DoDiscard(s));
  }

  /** Coordinators, monitors and the kernel touch neither births, nor flights, nor entries, nor the handler. */
  lemma EnvironmentKeepsBudgeted(s: State, step: Step)
    requires Budgeted(s) && Enabled(s, step)
    requires step.Recv? || step.Attach? || step.Reap? || step.Send? || step.MonitorFails? || step.TaskFails?
             || step.Exit?
    ensures Budgeted(Next(s, step))
  {
  }

  lemma StepKeepsBudgeted(s: State, step: Step)
    requires Kept(s) && Admitted(s) && Budgeted(s) && Enabled(s, step)
    ensures Budgeted(Next(s, step))
  {
    match step
    case Start(config, fork) => StartKeepsBudgeted(s, config, fork);
    case Refork(fork) => ReforkKeepsBudgeted(s, fork);
    case SubmitLog(who, sent) =>
      AdvanceKeepsBudgeted(s, who, Logged, Post(s.runtime, Logging, s.flights[who], sent));
    case SubmitMonitor(who, sent) => SubmitKeepsBudgeted(s, who, Process, sent, Monitored);
    case SubmitMetrics(who, sent) => SubmitKeepsBudgeted(s, who, Metrics, sent, Measured);
    case Insert(who) => InsertKeepsBudgeted(s, who);
    case Receive => ReceiveKeepsBudgeted(s);
    case Abandon(who) => AbandonKeepsBudgeted(s, who);
    case Stop(name) => StopKeepsBudgeted(s, name);
    case Finish(child) => FinishKeepsBudgeted(s, child);
    case Discard => DiscardKeepsBudgeted(s);
    case _ => EnvironmentKeepsBudgeted(s, step);
  }

  lemma {:induction false} AlwaysBudgeted(steps: seq<Step>, s: State)
    requires Reaches(steps, s)
    ensures Sound(s) && Budgeted(s)
  {
    AlwaysSound(steps, s);
    if steps != [] {
      var n := |steps| - 1;
      var before := Exec(INIT, steps[..n]).value;
      AlwaysBudgeted(steps[..n], before);
      StepKeepsBudgeted(before, steps[n]);
    }
  }

  // ----- what it means -----

  /** In no run is a chain of restarts incarnated more often than the policy it was started with allows. */
  lemma NeverMoreThanTheBudget(steps: seq<Step>, s: State, root: nat)
    requires Reaches(steps, s) && root < |s.past.births|
    ensures match s.past.births[root].config.restart
            case Capped(n) => Incarnations(s.past.births, root) <= if n <= 1 then 1 else n
            case NoRestart => Incarnations(s.past.births, root) <= 1
            case Infinite => true
  {
    AlwaysBudgeted(steps, s);
    CountStaysWithin(s.past.births, root, |s.past.births|);
    assert s.past.births[..|s.past.births|] == s.past.births;
  }

  /** The k-th incarnation carries the configuration of the first, less the k restarts already spent. */
  lemma OnlyTheBudgetChanges(steps: seq<Step>, s: State, c: nat)
    requires Reaches(steps, s) && c < |s.past.births|
    ensures var b := s.past.births[c];
            && b.root <= c
            && b.config == s.past.births[b.root].config.(
                 restart := Spent(s.past.births[b.root].config.restart, Incarnations(s.past.births[..c], b.root)))
  {
    AlwaysBudgeted(steps, s);
    assert BirthFollows(s.past.births, c);
  }

  /**
   When the handler takes the request of an entry it respawns exactly if the policy
   of the chain allows one incarnation more; so a `Capped(n)` chain is given up by
   its policy at exactly max(1, n) incarnations, and `Infinite` never.
   */
  lemma RefusedExactlyAtTheBudget(steps: seq<Step>, s: State)
    requires Reaches(steps, s) && Enabled(s, Receive) && s.restarts[0] in s.entries
    ensures var root := s.entries[s.restarts[0]].root;
            var so_far := Incarnations(s.past.births, root);
            && root < |s.past.births|
            && (Next(s, Receive).handler.Discarding? <==>
                match s.past.births[root].config.restart
                case Capped(n) => so_far == if n <= 1 then 1 else n
                case NoRestart => true
                case Infinite => false)
            && (!Next(s, Receive).handler.Discarding? <==> Next(s, Receive).handler.Respawning?)
  {
    AlwaysBudgeted(steps, s);
    var name := s.restarts[0];
    var k := EntryFollows(s, name);
    RespawnSpendsOne(s.past.births, s.entries[name].root, s.entries[name].config, k);
    NeverMoreThanTheBudget(steps, s, s.entries[name].root);
  }
}
