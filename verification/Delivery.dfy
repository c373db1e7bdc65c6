/**
 Task delivery: in every reachable state each registered task is queued in the
 one channel of its type, or has been received exactly once by that channel's
 coordinator, or was lost by a failed send; and channels are in allocation order.
 */
module Delivery {
  import opened Wrappers
  import opened Tasks
  import opened Config
  import opened Machine

  function Ids(queue: seq<Message>): seq<TaskId> {
    seq(|queue|, k requires 0 <= k < |queue| => queue[k].id)
  }

  /** Everything ever sent over a channel, oldest first. */
  function Flow(c: Channel): seq<TaskId> {
    c.consumed + Ids(c.queue)
  }

  ghost predicate Increasing(ids: seq<TaskId>) {
    forall i, j :: 0 <= i < j < |ids| ==> ids[i] < ids[j]
  }

  /** The coordinator owes a task its handles from the moment it attached them. */
  function HandlesDue(c: Channel, ty: TaskType, id: TaskId): seq<Handle> {
    if id in c.consumed && c.held != Some(id) then SpawnedHandles(ty, id) else []
  }

  /** The tasks of a type are those sent over its channel and those lost. */
  ghost predicate Filed(t: Table, c: Channel, ty: TaskType) {
    && (forall id :: id in Flow(c) ==> id in t.tasks && t.tasks[id].ty == ty)
    && (forall id :: id in c.lost ==> id in t.tasks && t.tasks[id].ty == ty && id !in Flow(c))
    && (forall id :: id in t.tasks && t.tasks[id].ty == ty ==> id in Flow(c) || id in c.lost)
  }

  ghost predicate Handled(t: Table, c: Channel, ty: TaskType) {
    && (forall id :: id in t.tasks && t.tasks[id].ty == ty ==> t.tasks[id].handles == HandlesDue(c, ty, id))
    && (c.held.Some? ==> c.consumed != [] && c.held.value == c.consumed[|c.consumed| - 1])
    && (forall m :: m in c.queue ==> m.id in t.tasks && t.tasks[m.id].pid == m.pid)
  }

  ghost predicate Conserved(t: Table, c: Channel, ty: TaskType) {
    Increasing(Flow(c)) && Filed(t, c, ty) && Handled(t, c, ty)
  }

  ghost predicate AbortedAreHeld(t: Table, aborted: set<Handle>) {
    forall h :: h in aborted ==> h.task in t.tasks && h in t.tasks[h.task].handles
  }

  ghost predicate Delivered(r: Runtime) {
    && Agree(r.table)
    && Conserved(r.table, r.logging, Logging)
    && Conserved(r.table, r.metrics, Metrics)
    && Conserved(r.table, r.lifecycle, Process)
    && AbortedAreHeld(r.table, r.aborted)
  }

  lemma {:induction false} WithHandlesEffect(t: Table, id: TaskId, hs: seq<Handle>)
    requires id in t.tasks
    ensures WithHandles(t, id, hs) ==
            t.(tasks := t.tasks[id := t.tasks[id].(handles := t.tasks[id].handles + hs)])
    decreases |hs|
  {
    if hs == [] {
      assert t.tasks[id].handles + hs == t.tasks[id].handles;
      assert t.tasks[id := t.tasks[id]] == t.tasks;
    } else {
      WithHandlesEffect(WithHandle(t, id, hs[0]), id, hs[1..]);
      assert (t.tasks[id].handles + [hs[0]]) + hs[1..] == t.tasks[id].handles + hs;
    }
  }

  /** The same tasks under the same index, up to status and handles. */
  ghost predicate SameShape(t: Table, u: Table) {
    && u.tasks.Keys == t.tasks.Keys
    && u.index == t.index
    && u.next == t.next
    && (forall i :: i in t.tasks ==> SameTask(t.tasks[i], u.tasks[i]))
  }

  ghost predicate SameTask(a: TaskInfo, b: TaskInfo) {
    a.id == b.id && a.pid == b.pid && a.ty == b.ty
  }

  ghost predicate SameHandles(t: Table, u: Table) {
    SameShape(t, u) && forall i :: i in t.tasks ==> u.tasks[i].handles == t.tasks[i].handles
  }

  lemma ShapeKeepsAgree(t: Table, u: Table)
    requires Agree(t) && SameShape(t, u)
    ensures Agree(u)
  {
    forall p, i | p in u.index && i in u.index[p] ensures i in u.tasks && u.tasks[i].pid == p {
      assert SameTask(t.tasks[i], u.tasks[i]);
    }
    forall i | i in u.tasks
      ensures u.tasks[i].pid in u.index && i in u.index[u.tasks[i].pid] && u.tasks[i].id == i && i < u.next
    {
      assert SameTask(t.tasks[i], u.tasks[i]);
    }
  }

  lemma StatusKeepsConserved(t: Table, u: Table, c: Channel, ty: TaskType)
    requires Conserved(t, c, ty) && SameHandles(t, u)
    ensures Conserved(u, c, ty)
  {
    forall id | id in t.tasks
      ensures u.tasks[id].ty == t.tasks[id].ty && u.tasks[id].pid == t.tasks[id].pid
    {
      assert SameTask(t.tasks[id], u.tasks[id]);
    }
  }

  lemma StatusKeepsDelivered(r: Runtime, q: Runtime)
    requires Delivered(r) && SameHandles(r.table, q.table)
    requires q.logging == r.logging && q.metrics == r.metrics && q.lifecycle == r.lifecycle
    requires AbortedAreHeld(r.table, q.aborted)
    ensures Delivered(q)
  {
    ShapeKeepsAgree(r.table, q.table);
    StatusKeepsConserved(r.table, q.table, r.logging, Logging);
    StatusKeepsConserved(r.table, q.table, r.metrics, Metrics);
    StatusKeepsConserved(r.table, q.table, r.lifecycle, Process);
  }

  /** A task holds only its own handles. */
  lemma HandlesAreOwn(r: Runtime, id: TaskId, h: Handle)
    requires Delivered(r) && id in r.table.tasks && h in r.table.tasks[id].handles
    ensures h.task == id
  {
    var ty := r.table.tasks[id].ty;
    assert r.table.tasks[id].handles == HandlesDue(Chan(r, ty), ty, id);
  }

  lemma KillKeepsDelivered(r: Runtime, pid: Pid)
    requires Delivered(r)
    ensures Delivered(KillTasks(r, pid))
  {
    KilledAreHeld(r, pid);
    StatusKeepsDelivered(r, KillTasks(r, pid));
  }

  lemma KilledAreHeld(r: Runtime, pid: Pid)
    requires Delivered(r)
    ensures AbortedAreHeld(r.table, KillTasks(r, pid).aborted)
  {
    forall h | h in KillHandles(r.table, pid) ensures h.task in r.table.tasks && h in r.table.tasks[h.task].handles {
      var i :| i in Listed(r.table, pid) && i in r.table.tasks && h in r.table.tasks[i].handles;
      HandlesAreOwn(r, i, h);
    }
  }

  lemma FlowOfReceive(c: Channel, m: Message)
    requires c.queue != [] && m == c.queue[0]
    ensures Flow(c.(queue := c.queue[1..], held := Some(m.id), consumed := c.consumed + [m.id])) == Flow(c)
  {
  }

  /** An id not yet allocated has never been sent, and everything sent is below it. */
  lemma NextIsUnused(t: Table, c: Channel, ty: TaskType)
    requires Agree(t) && Conserved(t, c, ty)
    ensures t.next !in Flow(c) && t.next !in c.consumed && t.next !in t.tasks
    ensures forall k :: 0 <= k < |Flow(c)| ==> Flow(c)[k] < t.next
  {
    forall k | 0 <= k < |Flow(c)| ensures Flow(c)[k] < t.next {
      assert Flow(c)[k] in Flow(c);
    }
    forall k | 0 <= k < |c.consumed| ensures c.consumed[k] < t.next {
      assert Flow(c)[k] == c.consumed[k];
    }
  }

  lemma SendConserves(t: Table, c: Channel, ty: TaskType, m: Message)
    requires Agree(t) && Conserved(t, c, ty) && m.id == t.next
    ensures Conserved(Admit(t, m.pid, ty), c.(queue := c.queue + [m]), ty)
  {
    var d := c.(queue := c.queue + [m]);
    NextIsUnused(t, c, ty);
    assert Flow(d) == Flow(c) + [m.id];
    assert Increasing(Flow(d));
    SendKeepsFiled(t, c, d, ty, m);
    SendKeepsHandled(t, c, d, ty, m);
  }

  lemma SendKeepsFiled(t: Table, c: Channel, d: Channel, ty: TaskType, m: Message)
    requires Filed(t, c, ty) && m.id == t.next && t.next !in t.tasks
    requires Flow(d) == Flow(c) + [m.id] && d.lost == c.lost
    ensures Filed(Admit(t, m.pid, ty), d, ty)
  {
    assert Flow(d)[|Flow(c)|] == m.id;
    assert forall id :: id in d.lost ==> id in t.tasks;
  }

  lemma SendKeepsHandled(t: Table, c: Channel, d: Channel, ty: TaskType, m: Message)
    requires Handled(t, c, ty) && m.id == t.next && t.next !in t.tasks && m.id !in c.consumed
    requires d == c.(queue := c.queue + [m])
    ensures Handled(Admit(t, m.pid, ty), d, ty)
  {
  }

  lemma LossConserves(t: Table, c: Channel, ty: TaskType, pid: Pid)
    requires Agree(t) && Conserved(t, c, ty)
    ensures Conserved(Admit(t, pid, ty), c.(lost := c.lost + {t.next}), ty)
  {
    NextIsUnused(t, c, ty);
    assert Flow(c.(lost := c.lost + {t.next})) == Flow(c);
  }

  lemma OtherSendConserves(t: Table, c: Channel, ty: TaskType, pid: Pid, other: TaskType)
    requires Agree(t) && Conserved(t, c, ty) && other != ty
    ensures Conserved(Admit(t, pid, other), c, ty)
  {
  }

  lemma PostKeepsDelivered(r: Runtime, ty: TaskType, f: Flight, sent: bool)
    requires Delivered(r)
    ensures Delivered(Post(r, ty, f, sent))
  {
    AdmitKeepsAgree(r.table, f.pid, ty);
    SendConserves(r.table, Chan(r, ty), ty, Message(r.table.next, f.pid, f.config.name, f.child));
    LossConserves(r.table, Chan(r, ty), ty, f.pid);
    if ty != Logging { OtherSendConserves(r.table, r.logging, Logging, f.pid, ty); }
    if ty != Metrics { OtherSendConserves(r.table, r.metrics, Metrics, f.pid, ty); }
    if ty != Process { OtherSendConserves(r.table, r.lifecycle, Process, f.pid, ty); }
  }

  lemma ReceiveConserves(t: Table, c: Channel, ty: TaskType)
    requires Conserved(t, c, ty) && c.queue != [] && c.held == None
    ensures var id := c.queue[0].id;
            Conserved(t, c.(queue := c.queue[1..], held := Some(id), consumed := c.consumed + [id]), ty)
  {
    var m := c.queue[0];
    var d := c.(queue := c.queue[1..], held := Some(m.id), consumed := c.consumed + [m.id]);
    FlowOfReceive(c, m);
    assert m.id == Flow(c)[|c.consumed|];
    forall k | 0 <= k < |c.consumed| ensures c.consumed[k] != m.id {
      assert Flow(c)[k] < Flow(c)[|c.consumed|];
    }
    forall id | id in t.tasks && t.tasks[id].ty == ty ensures t.tasks[id].handles == HandlesDue(d, ty, id) {
    }
  }

  lemma AttachConserves(t: Table, c: Channel, ty: TaskType)
    requires Conserved(t, c, ty) && c.held.Some?
    ensures Conserved(WithHandles(t, c.held.value, SpawnedHandles(ty, c.held.value)), c.(held := None), ty)
  {
    var id := c.held.value;
    assert id in Flow(c) && id in c.consumed;
    WithHandlesEffect(t, id, SpawnedHandles(ty, id));
    assert Flow(c.(held := None)) == Flow(c);
    assert t.tasks[id].handles == [];
    assert [] + SpawnedHandles(ty, id) == SpawnedHandles(ty, id);
  }

  lemma AttachElsewhereConserves(t: Table, c: Channel, ty: TaskType, id: TaskId, hs: seq<Handle>)
    requires Conserved(t, c, ty) && id in t.tasks && t.tasks[id].ty != ty
    ensures Conserved(WithHandles(t, id, hs), c, ty)
  {
    WithHandlesEffect(t, id, hs);
  }

  lemma RecvKeepsDelivered(r: Runtime, ty: TaskType)
    requires Delivered(r) && Chan(r, ty).queue != [] && Chan(r, ty).held == None
    ensures Delivered(Received(r, ty))
  {
    ReceiveConserves(r.table, Chan(r, ty), ty);
  }

  lemma AttachKeepsRest(t: Table, aborted: set<Handle>, id: TaskId, hs: seq<Handle>)
    requires Agree(t) && AbortedAreHeld(t, aborted) && id in t.tasks
    ensures Agree(WithHandles(t, id, hs)) && AbortedAreHeld(WithHandles(t, id, hs), aborted)
  {
    WithHandlesEffect(t, id, hs);
    ShapeKeepsAgree(t, WithHandles(t, id, hs));
  }

  lemma AttachKeepsChannel(r: Runtime, ty: TaskType, other: TaskType)
    requires Chan(r, ty).held.Some? && Conserved(r.table, Chan(r, ty), ty) && Conserved(r.table, Chan(r, other), other)
    ensures Conserved(Attached(r, ty).table, Chan(Attached(r, ty), other), other)
  {
    var id := Chan(r, ty).held.value;
    assert id in Flow(Chan(r, ty));
    AttachConserves(r.table, Chan(r, ty), ty);
    if ty != other {
      AttachElsewhereConserves(r.table, Chan(r, other), other, id, SpawnedHandles(ty, id));
    }
  }

  lemma AttachKeepsDelivered(r: Runtime, ty: TaskType)
    requires Delivered(r) && Chan(r, ty).held.Some?
    ensures Delivered(Attached(r, ty))
  {
    var id := Chan(r, ty).held.value;
    assert id in Flow(Chan(r, ty)) && id in r.table.tasks;
    AttachKeepsRest(r.table, r.aborted, id, SpawnedHandles(ty, id));
    AttachKeepsChannel(r, ty, Logging);
    AttachKeepsChannel(r, ty, Metrics);
    AttachKeepsChannel(r, ty, Process);
  }

  /** Every way a step can change the runtime. */
  ghost predicate RuntimeStep(s: State, step: Step, q: Runtime)
    requires Enabled(s, step)
  {
    var r := s.runtime;
    match step
    case SubmitLog(who, sent) => q == Post(r, Logging, s.flights[who], sent)
    case SubmitMonitor(who, _) => Submitted(r, Process, s.flights[who], q)
    case SubmitMetrics(who, _) => Submitted(r, Metrics, s.flights[who], q)
    case Finish(child) => q == KillTasks(r, s.condemned[child])
    case Receive => q == if s.restarts[0] in s.entries then KillTasks(r, s.entries[s.restarts[0]].pid) else r
    case Recv(ty) => q == Received(r, ty)
    case Attach(ty) => q == Attached(r, ty)
    case MonitorFails(id, reason) => q == Marked(r, id, reason)
    case TaskFails(id, reason) => q == Marked(r, id, reason)
    case _ => q == r
  }

  /** The three outcomes of a checked submission: sent, refused as a duplicate, or lost. */
  ghost predicate Submitted(r: Runtime, ty: TaskType, f: Flight, q: Runtime) {
    || (q == Post(r, ty, f, true) && !ListsType(r.table, f.pid, ty))
    || q == r
    || (q == Post(r, ty, f, false) && !ListsType(r.table, f.pid, ty))
  }

  lemma StartLeavesRuntime(s: State, config: ProcessConfig, fork: ForkOutcome)
    ensures DoStart(s, config, fork).runtime == s.runtime
  {
  }

  lemma ReforkLeavesRuntime(s: State, fork: ForkOutcome)
    requires s.handler.Respawning?
    ensures DoRefork(s, fork).runtime == s.runtime
  {
  }

  lemma SubmitIsSubmitted(s: State, who: Who, ty: TaskType, sent: bool, stage: Stage)
    requires who in s.flights
    ensures Submitted(s.runtime, ty, s.flights[who], DoSubmit(s, who, ty, sent, stage).runtime)
  {
  }

  lemma BookkeepingLeavesRuntime(s: State, step: Step)
    requires Enabled(s, step)
    requires step.Abandon? || step.Insert? || step.Stop? || step.Discard? || step.Reap? || step.Send? || step.Exit?
    ensures Next(s, step).runtime == s.runtime
  {
  }

  lemma NextIsRuntimeStep(s: State, step: Step)
    requires Enabled(s, step)
    ensures RuntimeStep(s, step, Next(s, step).runtime)
  {
    match step
    case Start(config, fork) => StartLeavesRuntime(s, config, fork);
    case Refork(fork) => ReforkLeavesRuntime(s, fork);
    case SubmitMonitor(who, sent) => SubmitIsSubmitted(s, who, Process, sent, Monitored);
    case SubmitMetrics(who, sent) => SubmitIsSubmitted(s, who, Metrics, sent, Measured);
    case SubmitLog(_, _) =>
    case Finish(_) =>
    case Receive =>
    case Recv(_) =>
    case Attach(_) =>
    case MonitorFails(_, _) =>
    case TaskFails(_, _) =>
    case _ => BookkeepingLeavesRuntime(s, step);
  }

  lemma SubmittedKeepsDelivered(r: Runtime, ty: TaskType, f: Flight, q: Runtime)
    requires Delivered(r) && Submitted(r, ty, f, q)
    ensures Delivered(q)
  {
    PostKeepsDelivered(r, ty, f, true);
    PostKeepsDelivered(r, ty, f, false);
  }

  lemma MarkKeepsDelivered(r: Runtime, id: TaskId, reason: string)
    requires Delivered(r)
    ensures Delivered(Marked(r, id, reason))
  {
    StatusKeepsDelivered(r, Marked(r, id, reason));
  }

  lemma RuntimeStepKeepsDelivered(s: State, step: Step, q: Runtime)
    requires Delivered(s.runtime) && Enabled(s, step) && RuntimeStep(s, step, q)
    ensures Delivered(q)
  {
    var r := s.runtime;
    match step
    case SubmitLog(who, sent) => PostKeepsDelivered(r, Logging, s.flights[who], sent);
    case SubmitMonitor(who, _) => SubmittedKeepsDelivered(r, Process, s.flights[who], q);
    case SubmitMetrics(who, _) => SubmittedKeepsDelivered(r, Metrics, s.flights[who], q);
    case Finish(child) => KillKeepsDelivered(r, s.condemned[child]);
    case Receive => if s.restarts[0] in s.entries { KillKeepsDelivered(r, s.entries[s.restarts[0]].pid); }
    case Recv(ty) => RecvKeepsDelivered(r, ty);
    case Attach(ty) => AttachKeepsDelivered(r, ty);
    case MonitorFails(id, reason) => MarkKeepsDelivered(r, id, reason);
    case TaskFails(id, reason) => MarkKeepsDelivered(r, id, reason);
    case _ =>
  }

  lemma StepKeepsDelivered(s: State, step: Step)
    requires Delivered(s.runtime) && Enabled(s, step)
    ensures Delivered(Next(s, step).runtime)
  {
    NextIsRuntimeStep(s, step);
    RuntimeStepKeepsDelivered(s, step, Next(s, step).runtime);
  }

  lemma {:induction false} AlwaysDelivered(steps: seq<Step>, s: State)
    requires Reaches(steps, s)
    ensures Delivered(s.runtime)
  {
    if steps != [] {
      var n := |steps| - 1;
      var before := Exec(INIT, steps[..n]).value;
      AlwaysDelivered(steps[..n], before);
      StepKeepsDelivered(before, steps[n]);
    }
  }

  // ----- what it means -----

  /** The number of times `id` stands in `ids`. */
  function Occurrences(ids: seq<TaskId>, id: TaskId): nat {
    if ids == [] then 0 else (if ids[0] == id then 1 else 0) + Occurrences(ids[1..], id)
  }

  lemma {:induction false} IncreasingOccursOnce(ids: seq<TaskId>, id: TaskId)
    requires Increasing(ids)
    ensures Occurrences(ids, id) == if id in ids then 1 else 0
  {
    if ids != [] {
      IncreasingOccursOnce(ids[1..], id);
      assert ids == [ids[0]] + ids[1..];
      if k :| 0 <= k < |ids[1..]| && ids[1..][k] == id {
        assert ids[0] < ids[k + 1];
      }
    }
  }

  /** An increasing sequence cut in two holds an id once, on one side of the cut. */
  lemma OccursOnOneSide(a: seq<TaskId>, b: seq<TaskId>, id: TaskId)
    requires Increasing(a + b)
    ensures Occurrences(a, id) + Occurrences(b, id) == if id in a + b then 1 else 0
  {
    var all := a + b;
    assert a == all[..|a|] && b == all[|a|..];
    IncreasingOccursOnce(a, id);
    IncreasingOccursOnce(b, id);
    if j :| 0 <= j < |a| && a[j] == id {
      forall k | 0 <= k < |b| ensures b[k] != id {
        assert all[j] < all[|a| + k];
      }
    }
  }

  /**
   In every reachable state a task is in exactly one of three situations, all of
   them in the channel of its own type: waiting there once and without handles;
   received once, with its handles unless it is the one being attached; or lost.
   */
  lemma EveryTaskIsDeliveredOnce(steps: seq<Step>, s: State, id: TaskId, other: TaskType)
    requires Reaches(steps, s) && id in s.runtime.table.tasks
    ensures var ty := s.runtime.table.tasks[id].ty;
            var c := Chan(s.runtime, ty);
            var seen := Occurrences(c.consumed, id);
            var waiting := Occurrences(Ids(c.queue), id);
            var dropped := if id in c.lost then 1 else 0;
            && seen + waiting + dropped == 1
            && |s.runtime.table.tasks[id].handles| ==
               (if seen == 0 || c.held == Some(id) then 0 else if ty == Logging then 2 else 1)
            && (other != ty ==> id !in Flow(Chan(s.runtime, other)) && id !in Chan(s.runtime, other).lost)
  {
    AlwaysDelivered(steps, s);
    var ty := s.runtime.table.tasks[id].ty;
    var c := Chan(s.runtime, ty);
    assert Conserved(s.runtime.table, c, ty);
    assert Conserved(s.runtime.table, Chan(s.runtime, other), other);
    OccursOnOneSide(c.consumed, Ids(c.queue), id);
    assert c.consumed == Flow(c)[..|c.consumed|];
    IncreasingOccursOnce(c.consumed, id);
  }

  /** Each channel hands its coordinator ids in strictly increasing order, all of them already allocated. */
  lemma ChannelsAreInAllocationOrder(steps: seq<Step>, s: State, ty: TaskType)
    requires Reaches(steps, s)
    ensures Increasing(Flow(Chan(s.runtime, ty)))
    ensures forall id :: id in Flow(Chan(s.runtime, ty)) ==> id < s.runtime.table.next
  {
    AlwaysDelivered(steps, s);
  }
}
