/**
 The restart budget is used in full: a process that keeps exiting and whose
 respawns succeed is incarnated exactly as often as its policy allows.
 */
module Lifetimes {
  import opened Wrappers
  import opened Tasks
  import opened Config
  import opened Machine
  import opened Delivery
  import opened Children
  import opened Discipline
  import opened Budget
  import opened Witnesses

  /** Nothing is going on but the `k`-th restart of the one process there is, running under `pid`. */
  ghost predicate Running(s: State, config: ProcessConfig, k: nat, pid: Pid) {
    && s.entries == map[config.name := Entry(config.(restart := Spent(config.restart, k)), pid, k, 0)]
    && s.flights == map[] && s.restarts == [] && s.handler == Idle && s.sending == map[] && s.condemned == map[]
    && |s.past.births| == k + 1 && Incarnations(s.past.births, 0) == k + 1 && s.past.births[0].config == config
    && s.os == map[pid := Child(k, false)]
    && Watching(s.runtime, config.name, pid)
  }

  ghost predicate Watching(r: Runtime, name: string, pid: Pid) {
    && r.lifecycle.held == None
    && |r.lifecycle.queue| == 1 && r.lifecycle.queue[0].pid == pid && r.lifecycle.queue[0].name == name
  }

  /** A monitor that was never received has no handle to abort. */
  lemma QueuedIsNotAborted(r: Runtime, m: Message)
    requires Delivered(r) && m in r.lifecycle.queue
    ensures Handle(m.id, 0) !in r.aborted
  {
    var c := r.lifecycle;
    var k :| 0 <= k < |c.queue| && c.queue[k] == m;
    assert Flow(c)[|c.consumed| + k] == m.id;
    forall l | 0 <= l < |c.consumed| ensures c.consumed[l] != m.id {
      assert Flow(c)[l] < Flow(c)[|c.consumed| + k];
    }
    assert r.table.tasks[m.id].handles == [];
  }

  lemma NextMonitorIsNotAborted(steps: seq<Step>, s: State)
    requires Reaches(steps, s) && s.runtime.lifecycle.queue != []
    ensures Handle(s.runtime.lifecycle.queue[0].id, 0) !in s.runtime.aborted
  {
    AlwaysSound(steps, s);
    QueuedIsNotAborted(s.runtime, s.runtime.lifecycle.queue[0]);
  }

  /** The process exits, is reported, and the handler takes the request. */
  lemma ExitIsTaken(s: State, config: ProcessConfig, k: nat, pid: Pid) returns (steps: seq<Step>, t: State)
    requires Running(s, config, k, pid) && Handle(s.runtime.lifecycle.queue[0].id, 0) !in s.runtime.aborted
    ensures Exec(s, steps) == Some(t) && DisciplinedFrom(s, steps)
    ensures t.entries == map[] && t.flights == map[] && t.restarts == [] && t.os == map[] && t.past == s.past
    ensures t.sending == map[] && t.condemned == map[]
    ensures var (again, next) := Respawn(config.(restart := Spent(config.restart, k)));
            t.handler == if again then Respawning(next, 0) else Discarding(config.name)
    ensures t.runtime.lifecycle.queue == [] && t.runtime.lifecycle.held == None
    ensures t.runtime.table.index == s.runtime.table.index
  {
    var first, m := ExitIsReported(s, true);
    assert m.restarts == [config.name] && m.os == map[];
    Then(s, first, m, Receive);
    DisciplinedThen(s, first, m, Receive);
    steps := first + [Receive];
    t := Next(m, Receive);
    assert t.entries == map[] && t.restarts == [];
    AttachLeavesIndex(s.runtime.table, s.runtime.lifecycle.queue[0].id,
                      SpawnedHandles(Process, s.runtime.lifecycle.queue[0].id));
  }

  /** From its fork on, an uninterrupted child under a new pid is placed. */
  lemma UnseenIsPlaced(s: State, who: Who) returns (steps: seq<Step>, t: State)
    requires At(s, who, Spawned) && s.flights[who].pid !in s.runtime.table.index
    requires s.runtime.lifecycle.queue == [] && s.runtime.lifecycle.held == None
    ensures Exec(s, steps) == Some(t) && AllUnconditional(steps)
    ensures var f := s.flights[who];
            var e := Entry(f.config, f.pid, f.child, f.root);
            && t == s.(flights := s.flights - {who}, entries := s.entries[f.config.name := e],
                       past := s.past.(inserted := s.past.inserted + [e]),
                       handler := if who == Restarter then Idle else s.handler, runtime := t.runtime)
            && Watching(t.runtime, f.config.name, f.pid)
            && t.runtime.table.index.Keys == s.runtime.table.index.Keys + {f.pid}
  {
    var a, m := LogAndMonitor(s, who);
    TwoAreNoDuplicate(m.runtime.table, s.flights[who].pid, Metrics);
    var b;
    b, t := FinishPlacing(m, who);
    ExecConcat(s, a, m, b);
    steps := a + b;
    assert t.flights == s.flights - {who};
  }

  /** The handler forks and places the next incarnation. */
  lemma RespawnPlaces(s: State, pid: Pid) returns (steps: seq<Step>, t: State)
    requires s.handler.Respawning? && s.flights == map[] && s.os == map[] && s.entries == map[]
    requires s.runtime.lifecycle.queue == [] && s.runtime.lifecycle.held == None && pid !in s.runtime.table.index
    ensures Exec(s, steps) == Some(t) && AllUnconditional(steps)
    ensures var config := s.handler.config;
            && t.entries == map[config.name := Entry(config, pid, Newborn(s), s.handler.root)]
            && t.flights == map[] && t.restarts == s.restarts && t.handler == Idle
            && t.sending == s.sending && t.condemned == s.condemned
            && t.past.births == s.past.births + [Birth(pid, config, s.handler.root)]
            && t.os == map[pid := Child(Newborn(s), false)]
            && Watching(t.runtime, config.name, pid)
            && t.runtime.table.index.Keys == s.runtime.table.index.Keys + {pid}
  {
    ExecOne(s, Refork(Forked(pid)));
    var s1 := Next(s, Refork(Forked(pid)));
    var a;
    a, t := UnseenIsPlaced(s1, Restarter);
    ExecConcat(s, [Refork(Forked(pid))], s1, a);
    steps := [Refork(Forked(pid))] + a;
    assert t.flights == map[];
  }

  lemma NextIncarnation(births: seq<Birth>, birth: Birth)
    ensures (births + [birth])[..|births|] == births
    ensures Incarnations(births + [birth], birth.root) == Incarnations(births, birth.root) + 1
  {
    assert (births + [birth])[..|births|] == births;
  }

  /** One restart: the running process exits and is replaced by its next incarnation. */
  lemma OneRestart(before: seq<Step>, s: State, config: ProcessConfig, k: nat, pid: Pid, next: Pid)
    returns (steps: seq<Step>, t: State)
    requires Reaches(before, s) && DisciplinedRun(before) && Running(s, config, k, pid)
    requires Allows(config.restart, k + 2) && next !in s.runtime.table.index
    ensures Reaches(steps, t) && DisciplinedRun(steps) && Running(t, config, k + 1, next)
    ensures t.runtime.table.index.Keys == s.runtime.table.index.Keys + {next}
    ensures t.past.births[..k + 1] == s.past.births && t.past.births[k + 1].pid == next
  {
    NextMonitorIsNotAborted(before, s);
    var a, m, b;
    a, m, b, t := RestartFrom(s, config, k, pid, next);
    JoinRuns(before, s, a, m, b, t);
    steps := before + a + b;
  }

  lemma RestartFrom(s: State, config: ProcessConfig, k: nat, pid: Pid, next: Pid)
    returns (a: seq<Step>, m: State, b: seq<Step>, t: State)
    requires Running(s, config, k, pid) && Handle(s.runtime.lifecycle.queue[0].id, 0) !in s.runtime.aborted
    requires Allows(config.restart, k + 2) && next !in s.runtime.table.index
    ensures Exec(s, a) == Some(m) && DisciplinedFrom(s, a) && Exec(m, b) == Some(t) && AllUnconditional(b)
    ensures Running(t, config, k + 1, next)
    ensures t.runtime.table.index.Keys == s.runtime.table.index.Keys + {next}
    ensures t.past.births[..k + 1] == s.past.births && t.past.births[k + 1].pid == next
  {
    a, m := ExitIsTaken(s, config, k, pid);
    b, t := RespawnPlaces(m, next);
    NextIncarnation(s.past.births, Birth(next, m.handler.config, 0));
  }

  lemma JoinRuns(before: seq<Step>, s: State, a: seq<Step>, m: State, b: seq<Step>, t: State)
    requires Reaches(before, s) && DisciplinedRun(before)
    requires Exec(s, a) == Some(m) && DisciplinedFrom(s, a) && Exec(m, b) == Some(t) && AllUnconditional(b)
    ensures Reaches(before + a + b, t) && DisciplinedRun(before + a + b)
  {
    ExecConcat(INIT, before, s, a);
    ExecConcat(INIT, before + a, m, b);
    DisciplinedConcat(INIT, before, s, a);
    UnconditionalIsDisciplined(m, b);
    DisciplinedConcat(INIT, before + a, m, b);
  }

  predicate Distinct(pids: seq<Pid>) {
    forall i, j | 0 <= i < j < |pids| :: pids[i] != pids[j]
  }

  ghost predicate BornUnder(births: seq<Birth>, pids: seq<Pid>) {
    |births| == |pids| && forall k :: 0 <= k < |pids| ==> births[k].pid == pids[k]
  }

  lemma FirstIncarnation(config: ProcessConfig, pid: Pid) returns (steps: seq<Step>, t: State)
    ensures Reaches(steps, t) && DisciplinedRun(steps) && Running(t, config, 0, pid)
    ensures BornUnder(t.past.births, [pid]) && t.runtime.table.index.Keys == {pid}
  {
    steps, t := UninterruptedStartSucceeds(INIT, config, pid);
    assert DisciplinedRun(steps) by {
      HeadThenUnconditional(INIT, steps[0], steps[1..]);
      assert steps == [steps[0]] + steps[1..];
    }
    assert config.(restart := Spent(config.restart, 0)) == config;
    assert t.runtime.lifecycle.queue == [] + [Message(2, pid, config.name, 0)];
    NextIncarnation([], Birth(pid, config, 0));
    assert t.past.births == [Birth(pid, config, 0)];
  }

  ghost predicate SeenOnly(seen: set<Pid>, pids: seq<Pid>) {
    forall p :: p in seen ==> p in pids
  }

  lemma LastIsNew(pids: seq<Pid>)
    requires pids != [] && Distinct(pids)
    ensures var n := |pids| - 1;
            && Distinct(pids[..n]) && pids[n] !in pids[..n]
            && (forall seen :: SeenOnly(seen, pids[..n]) ==> pids[n] !in seen && SeenOnly(seen + {pids[n]}, pids))
  {
    var n := |pids| - 1;
    assert pids == pids[..n] + [pids[n]];
    assert pids[n] in pids;
    forall seen | SeenOnly(seen, pids[..n]) ensures pids[n] !in seen && SeenOnly(seen + {pids[n]}, pids) {
      assert forall p :: p in seen ==> p in pids[..n] && p in pids;
    }
  }

  lemma BornUnderNext(births: seq<Birth>, pids: seq<Pid>)
    requires pids != [] && |births| == |pids|
    requires BornUnder(births[..|pids| - 1], pids[..|pids| - 1]) && births[|pids| - 1].pid == pids[|pids| - 1]
    ensures BornUnder(births, pids)
  {
    forall k | 0 <= k < |pids| - 1 ensures births[k].pid == pids[k] {
      assert births[..|pids| - 1][k] == births[k];
    }
  }

  /** As many incarnations as the policy allows can follow one another, whatever pids the kernel hands out. */
  lemma {:induction false} AllowedIncarnationsHappen(config: ProcessConfig, pids: seq<Pid>)
    returns (steps: seq<Step>, t: State)
    requires pids != [] && Distinct(pids) && Allows(config.restart, |pids|)
    ensures Reaches(steps, t) && DisciplinedRun(steps)
    ensures Running(t, config, |pids| - 1, pids[|pids| - 1]) && BornUnder(t.past.births, pids)
    ensures SeenOnly(t.runtime.table.index.Keys, pids)
    decreases |pids|
  {
    var n := |pids| - 1;
    if n == 0 {
      steps, t := FirstIncarnation(config, pids[0]);
    } else {
      LastIsNew(pids);
      var before, s := AllowedIncarnationsHappen(config, pids[..n]);
      assert pids[..n][n - 1] == pids[n - 1];
      steps, t := OneRestart(before, s, config, n - 1, pids[n - 1], pids[n]);
      BornUnderNext(t.past.births, pids);
    }
  }

  /**
   A `Capped(n)` process that keeps exiting is forked exactly max(1, n) times; then
   the handler drops it and is ready for the next request. The upper bound over all
   other runs is `Budget.NeverMoreThanTheBudget`.
   */
  lemma CappedProcessUsesItsBudget(config: ProcessConfig, pids: seq<Pid>) returns (steps: seq<Step>, t: State)
    requires config.restart.Capped? && Distinct(pids)
    requires |pids| == if config.restart.limit <= 1 then 1 else config.restart.limit
    ensures Reaches(steps, t) && DisciplinedRun(steps)
    ensures BornUnder(t.past.births, pids) && Incarnations(t.past.births, 0) == |pids|
    ensures t.entries == map[] && t.flights == map[] && t.os == map[] && t.restarts == [] && t.handler == Idle
  {
    var before, s := AllowedIncarnationsHappen(config, pids);
    NextMonitorIsNotAborted(before, s);
    var a, m := ExitIsTaken(s, config, |pids| - 1, pids[|pids| - 1]);
    ExecConcat(INIT, before, s, a);
    Then(INIT, before + a, m, Discard);
    DisciplinedConcat(INIT, before, s, a);
    DisciplinedThen(INIT, before + a, m, Discard);
    steps := before + a + [Discard];
    t := Next(m, Discard);
    assert t.entries == map[];
  }
}
