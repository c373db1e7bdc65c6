/**
 The task registry of src/threads.rs: a primary map from task id to task, a
 secondary index from pid to the ids of its tasks, and an id allocator.

 The functions on `Table` say what each operation does to the registry's value;
 the class `TaskRegistry` performs the operations in place and is proved
 against them.
 */
module Tasks {
  import opened Wrappers

  type TaskId = nat
  type Pid = int

  datatype TaskType = Logging | Metrics | Process

  datatype TaskStatus = Running | Completed | Failed(reason: string)

  /** The join handle of one future spawned for a task; `part` tells apart the two streams of a logging task. */
  datatype Handle = Handle(task: TaskId, part: nat)

  datatype TaskInfo = TaskInfo(id: TaskId, pid: Pid, ty: TaskType, handles: seq<Handle>, status: TaskStatus)

  datatype TaskError = TaskNotFound | InconsistentRuntimeState

  datatype Table = Table(tasks: map<TaskId, TaskInfo>, index: map<Pid, seq<TaskId>>, next: TaskId)

  const EMPTY_TABLE := Table(map[], map[], 1)

  // ----- what the operations compute -----

  function Register(t: Table, id: TaskId, pid: Pid, ty: TaskType): Table {
    var listed := if pid in t.index then t.index[pid] else [];
    t.(tasks := t.tasks[id := TaskInfo(id, pid, ty, [], Running)], index := t.index[pid := listed + [id]])
  }

  /** `allocate` followed by `register_task`, as every submission does under one lock. */
  function Admit(t: Table, pid: Pid, ty: TaskType): Table {
    Register(t.(next := t.next + 1), t.next, pid, ty)
  }

  function WithHandle(t: Table, id: TaskId, h: Handle): Table {
    if id in t.tasks then t.(tasks := t.tasks[id := t.tasks[id].(handles := t.tasks[id].handles + [h])]) else t
  }

  function WithStatus(t: Table, id: TaskId, status: TaskStatus): Table {
    if id in t.tasks then t.(tasks := t.tasks[id := t.tasks[id].(status := status)]) else t
  }

  function Listed(t: Table, pid: Pid): seq<TaskId> {
    if pid in t.index then t.index[pid] else []
  }

  /** The tasks found for a list of ids, skipping the ids that have no task. */
  function Lookup(t: Table, ids: seq<TaskId>): seq<TaskInfo> {
    if ids == [] then []
    else (if ids[0] in t.tasks then [t.tasks[ids[0]]] else []) + Lookup(t, ids[1..])
  }

  function ByPid(t: Table, pid: Pid): seq<TaskInfo> {
    Lookup(t, Listed(t, pid))
  }

  /** The duplicate check of the metrics and process submissions. */
  ghost predicate ListsType(t: Table, pid: Pid, ty: TaskType) {
    exists k :: 0 <= k < |ByPid(t, pid)| && ByPid(t, pid)[k].ty == ty
  }

  function CompleteListed(t: Table, ids: seq<TaskId>): Table {
    t.(tasks := map i | i in t.tasks :: if i in ids then t.tasks[i].(status := Completed) else t.tasks[i])
  }

  /** `kill_tasks_by_pid`: every task listed for the pid is marked completed ... */
  function Kill(t: Table, pid: Pid): Table {
    CompleteListed(t, Listed(t, pid))
  }

  /** ... and every handle it holds is aborted. */
  ghost function HandlesListed(t: Table, ids: seq<TaskId>): set<Handle> {
    set i, h | i in ids && i in t.tasks && h in t.tasks[i].handles :: h
  }

  ghost function KillHandles(t: Table, pid: Pid): set<Handle> {
    HandlesListed(t, Listed(t, pid))
  }

  /** `remove_task` drops the whole list of the task's pid from the index. */
  function Remove(t: Table, id: TaskId): Table {
    if id !in t.tasks then t
    else t.(tasks := t.tasks - {id}, index := t.index - {t.tasks[id].pid})
  }

  function Without(ids: seq<TaskId>, id: TaskId): seq<TaskId> {
    if ids == [] then [] else (if ids[0] == id then [] else [ids[0]]) + Without(ids[1..], id)
  }

  /** A variant of `remove_task` that drops only the removed id from the list of its pid. */
  function RemoveOne(t: Table, id: TaskId): Table {
    if id !in t.tasks then t
    else
      var pid := t.tasks[id].pid;
      t.(tasks := t.tasks - {id}, index := t.index[pid := Without(Listed(t, pid), id)])
  }

  // ----- the agreement of the two maps -----

  ghost predicate NoDuplicates<T>(s: seq<T>) {
    forall i, j :: 0 <= i < j < |s| ==> s[i] != s[j]
  }

  /** Every indexed id names a task of that pid, and no list has duplicates. */
  ghost predicate IndexSound(t: Table) {
    && (forall p, i :: p in t.index && i in t.index[p] ==> i in t.tasks && t.tasks[i].pid == p)
    && (forall p :: p in t.index ==> NoDuplicates(t.index[p]))
  }

  /** Every task is listed under its pid. */
  ghost predicate IndexComplete(t: Table) {
    forall i :: i in t.tasks ==> t.tasks[i].pid in t.index && i in t.index[t.tasks[i].pid]
  }

  ghost predicate KeysAgree(t: Table) {
    forall i :: i in t.tasks ==> t.tasks[i].id == i && i < t.next
  }

  ghost predicate Agree(t: Table) {
    IndexSound(t) && IndexComplete(t) && KeysAgree(t)
  }

  ghost predicate HasTask(t: Table, pid: Pid, ty: TaskType) {
    exists i :: i in t.tasks && t.tasks[i].pid == pid && t.tasks[i].ty == ty
  }

  lemma AdmitKeepsAgree(t: Table, pid: Pid, ty: TaskType)
    requires Agree(t)
    ensures Agree(Admit(t, pid, ty))
  {
    var u := Admit(t, pid, ty);
    assert t.next !in t.tasks;
    forall p, i | p in u.index && i in u.index[p] ensures i in u.tasks && u.tasks[i].pid == p {
      if p == pid && i != t.next {
        assert i in Listed(t, pid);
      }
    }
    forall p | p in u.index ensures NoDuplicates(u.index[p]) {
      if p == pid {
        assert forall i :: i in Listed(t, pid) ==> i != t.next;
      }
    }
    forall i | i in u.tasks ensures u.tasks[i].pid in u.index && i in u.index[u.tasks[i].pid] {
      if i == t.next {
        assert u.index[pid][|u.index[pid]| - 1] == i;
      } else if u.tasks[i].pid == pid {
        assert i in Listed(t, pid);
      }
    }
  }

  lemma HandleAndStatusKeepAgree(t: Table, id: TaskId, h: Handle, status: TaskStatus)
    requires Agree(t)
    ensures Agree(WithHandle(t, id, h)) && Agree(WithStatus(t, id, status))
  {
  }

  lemma KillKeepsAgree(t: Table, pid: Pid)
    requires Agree(t)
    ensures Agree(Kill(t, pid))
  {
  }

  lemma {:induction false} LookupMembers(t: Table, ids: seq<TaskId>, info: TaskInfo)
    ensures info in Lookup(t, ids) <==> exists i :: i in ids && i in t.tasks && t.tasks[i] == info
  {
    if ids != [] {
      LookupMembers(t, ids[1..], info);
      assert ids == [ids[0]] + ids[1..];
    }
  }

  lemma {:induction false} LookupOfLive(t: Table, ids: seq<TaskId>)
    requires forall i :: i in ids ==> i in t.tasks
    ensures |Lookup(t, ids)| == |ids|
    ensures forall k :: 0 <= k < |ids| ==> Lookup(t, ids)[k] == t.tasks[ids[k]]
  {
    if ids != [] {
      assert forall i :: i in ids[1..] ==> i in ids;
      LookupOfLive(t, ids[1..]);
    }
  }

  /** Looking up a pid through the index equals filtering all tasks by pid: same tasks, each once. */
  lemma ByPidIsFilter(t: Table, pid: Pid)
    requires Agree(t)
    ensures forall info :: info in ByPid(t, pid) <==>
              exists i :: i in t.tasks && t.tasks[i].pid == pid && t.tasks[i] == info
    ensures NoDuplicates(ByPid(t, pid))
  {
    var ids := Listed(t, pid);
    forall info ensures info in ByPid(t, pid) <==>
        exists i :: i in t.tasks && t.tasks[i].pid == pid && t.tasks[i] == info
    {
      LookupMembers(t, ids, info);
    }
    LookupOfLive(t, ids);
    forall j, k | 0 <= j < k < |ids| ensures ByPid(t, pid)[j] != ByPid(t, pid)[k] {
      assert ids[j] in t.tasks && ids[k] in t.tasks;
    }
  }

  /** The duplicate check sees a task of the type exactly when the registry holds one for the pid. */
  lemma DuplicateCheckIsExact(t: Table, pid: Pid, ty: TaskType)
    requires Agree(t)
    ensures ListsType(t, pid, ty) <==> HasTask(t, pid, ty)
  {
    ByPidIsFilter(t, pid);
    var infos := ByPid(t, pid);
    if ListsType(t, pid, ty) {
      var k :| 0 <= k < |infos| && infos[k].ty == ty;
      assert infos[k] in infos;
    }
    if HasTask(t, pid, ty) {
      var i :| i in t.tasks && t.tasks[i].pid == pid && t.tasks[i].ty == ty;
      assert t.tasks[i] in infos;
    }
  }

  /** Killing by pid completes and aborts every task of the pid, not only the listed ones, and nothing else. */
  lemma KillReachesEveryTask(t: Table, pid: Pid)
    requires Agree(t)
    ensures Kill(t, pid).tasks ==
            map i | i in t.tasks :: if t.tasks[i].pid == pid then t.tasks[i].(status := Completed) else t.tasks[i]
    ensures Kill(t, pid).index == t.index && Kill(t, pid).next == t.next
    ensures forall h :: h in KillHandles(t, pid) <==>
              exists i :: i in t.tasks && t.tasks[i].pid == pid && h in t.tasks[i].handles
  {
    assert forall i :: i in t.tasks ==> (i in Listed(t, pid) <==> t.tasks[i].pid == pid);
  }

  /** `remove_task` keeps the index sound, and complete only if the removed task was the last of its pid. */
  lemma RemoveKeepsAgreeIffLast(t: Table, id: TaskId)
    requires Agree(t) && id in t.tasks
    ensures IndexSound(Remove(t, id)) && KeysAgree(Remove(t, id))
    ensures Agree(Remove(t, id)) <==> forall i :: i in t.tasks && t.tasks[i].pid == t.tasks[id].pid ==> i == id
  {
    var u := Remove(t, id);
    if i :| i in t.tasks && t.tasks[i].pid == t.tasks[id].pid && i != id {
      assert i in u.tasks && u.tasks[i].pid !in u.index;
    }
  }

  lemma {:induction false} WithoutMembers(ids: seq<TaskId>, id: TaskId, i: TaskId)
    ensures i in Without(ids, id) <==> i in ids && i != id
  {
    if ids != [] {
      WithoutMembers(ids[1..], id, i);
      assert ids == [ids[0]] + ids[1..];
    }
  }

  lemma {:induction false} WithoutNoDuplicates(ids: seq<TaskId>, id: TaskId)
    requires NoDuplicates(ids)
    ensures NoDuplicates(Without(ids, id))
  {
    if ids != [] {
      WithoutNoDuplicates(ids[1..], id);
      WithoutMembers(ids[1..], id, ids[0]);
      var rest := Without(ids[1..], id);
      assert ids[0] !in rest;
      assert forall j :: 0 <= j < |rest| ==> rest[j] in rest;
    }
  }

  /** Dropping only the removed id repairs the agreement in both directions. */
  lemma RemoveOneKeepsAgree(t: Table, id: TaskId)
    requires Agree(t)
    ensures Agree(RemoveOne(t, id))
  {
    if id in t.tasks {
      var pid := t.tasks[id].pid;
      var u := RemoveOne(t, id);
      WithoutNoDuplicates(Listed(t, pid), id);
      forall i ensures i in Without(Listed(t, pid), id) <==> i in Listed(t, pid) && i != id {
        WithoutMembers(Listed(t, pid), id, i);
      }
      assert forall i :: i in u.tasks ==> u.tasks[i] == t.tasks[i];
      assert forall p, i :: p in u.index && i in u.index[p] ==> i in u.tasks && u.tasks[i].pid == p;
    }
  }

  // ----- the registry itself -----

  class TaskRegistry {
    var tasks: map<TaskId, TaskInfo>
    var pidIndex: map<Pid, seq<TaskId>>
    var next: TaskId

    ghost function Contents(): Table
      reads this
    {
      Table(tasks, pidIndex, next)
    }

    constructor ()
      ensures Contents() == EMPTY_TABLE
      ensures tasks == map[] && pidIndex == map[] && next == 1
    {
      tasks := map[];
      pidIndex := map[];
      next := 1;
    }

    method Allocate() returns (id: TaskId)
      modifies this`next
      ensures id == old(next)
      ensures Contents() == old(Contents()).(next := id + 1) && next == old(next) + 1
    {
      id := next;
      next := next + 1;
    }

    method RegisterTask(id: TaskId, pid: Pid, ty: TaskType)
      modifies this
      ensures Contents() == Register(old(Contents()), id, pid, ty)
      ensures tasks == old(tasks)[id := TaskInfo(id, pid, ty, [], Running)] && next == old(next)
      ensures pidIndex == old(pidIndex)[pid := (if pid in old(pidIndex) then old(pidIndex)[pid] else []) + [id]]
    {
      var info := TaskInfo(id, pid, ty, [], Running);
      tasks := tasks[id := info];
      if pid !in pidIndex {
        pidIndex := pidIndex[pid := []];
      }
      pidIndex := pidIndex[pid := pidIndex[pid] + [id]];
    }

    method AddHandle(id: TaskId, handle: Handle) returns (r: Result<(), TaskError>)
      modifies this`tasks
      ensures Contents() == WithHandle(old(Contents()), id, handle)
      ensures id in old(tasks) ==>
                tasks == old(tasks)[id := old(tasks)[id].(handles := old(tasks)[id].handles + [handle])]
      ensures id !in old(tasks) ==> tasks == old(tasks)
      ensures r == if id in old(tasks) then Success(()) else Failure(TaskNotFound)
    {
      if id in tasks {
        tasks := tasks[id := tasks[id].(handles := tasks[id].handles + [handle])];
        r := Success(());
      } else {
        r := Failure(TaskNotFound);
      }
    }

    method UpdateStatus(id: TaskId, status: TaskStatus) returns (r: Result<(), TaskError>)
      modifies this`tasks
      ensures Contents() == WithStatus(old(Contents()), id, status)
      ensures id in old(tasks) ==> tasks == old(tasks)[id := old(tasks)[id].(status := status)]
      ensures id !in old(tasks) ==> tasks == old(tasks)
      ensures r == if id in old(tasks) then Success(()) else Failure(TaskNotFound)
    {
      if id in tasks {
        tasks := tasks[id := tasks[id].(status := status)];
        r := Success(());
      } else {
        r := Failure(TaskNotFound);
      }
    }

    method GetTasksByPid(pid: Pid) returns (infos: seq<TaskInfo>)
      ensures infos == ByPid(Contents(), pid)
      ensures pid !in pidIndex ==> infos == []
      ensures pid in pidIndex ==>
                forall info :: info in infos <==> exists i :: i in pidIndex[pid] && i in tasks && tasks[i] == info
    {
      infos := [];
      if pid in pidIndex {
        var ids := pidIndex[pid];
        for k := 0 to |ids|
          invariant infos + Lookup(Contents(), ids[k..]) == Lookup(Contents(), ids)
        {
          assert ids[k..][1..] == ids[k + 1..];
          if ids[k] in tasks {
            infos := infos + [tasks[ids[k]]];
          }
        }
        forall info
          ensures info in Lookup(Contents(), ids) <==> exists i :: i in ids && i in tasks && tasks[i] == info {
          LookupMembers(Contents(), ids, info);
        }
      }
    }

    /** The duplicate check: does `get_tasks_by_pid` return a task of type `ty`? */
    method HasTaskOfType(pid: Pid, ty: TaskType) returns (found: bool)
      ensures found <==> ListsType(Contents(), pid, ty)
    {
      var infos := GetTasksByPid(pid);
      found := false;
      for k := 0 to |infos|
        invariant found <==> exists j :: 0 <= j < k && infos[j].ty == ty
      {
        if infos[k].ty == ty {
          found := true;
        }
      }
    }

    /** The error is returned after the task is already gone from `tasks`. */
    method RemoveTask(id: TaskId) returns (r: Result<TaskInfo, TaskError>)
      modifies this
      ensures Contents() == Remove(old(Contents()), id)
      ensures tasks == old(tasks) - {id} && next == old(next)
      ensures pidIndex == if id in old(tasks) then old(pidIndex) - {old(tasks)[id].pid} else old(pidIndex)
      ensures r == if id !in old(tasks) then Failure(TaskNotFound)
                   else if old(tasks[id]).pid !in old(pidIndex) then Failure(InconsistentRuntimeState)
                   else Success(old(tasks[id]))
    {
      if id in tasks {
        var task := tasks[id];
        tasks := tasks - {id};
        if task.pid !in pidIndex {
          assert pidIndex == pidIndex - {task.pid};
          return Failure(InconsistentRuntimeState);
        }
        pidIndex := pidIndex - {task.pid};
        r := Success(task);
      } else {
        r := Failure(TaskNotFound);
      }
    }

    /** The loop of `kill_tasks_by_pid`; the handles it aborts are returned. */
    method KillByPid(pid: Pid) returns (aborted: set<Handle>)
      modifies this`tasks
      ensures Contents() == Kill(old(Contents()), pid)
      ensures aborted == KillHandles(old(Contents()), pid)
      ensures tasks.Keys == old(tasks).Keys
      ensures forall i | i in tasks ::
                tasks[i] == if pid in pidIndex && i in pidIndex[pid] then old(tasks)[i].(status := Completed)
                            else old(tasks)[i]
      ensures forall h :: h in aborted <==>
                exists i :: pid in pidIndex && i in pidIndex[pid] && i in old(tasks) && h in old(tasks)[i].handles
    {
      aborted := {};
      ghost var was := Contents();
      if pid !in pidIndex {
        assert Kill(was, pid).tasks == was.tasks;
        return;
      }
      var ids := pidIndex[pid];
      assert CompleteListed(was, ids[..0]).tasks == was.tasks;
      for k := 0 to |ids|
        invariant Contents() == CompleteListed(was, ids[..k])
        invariant aborted == HandlesListed(was, ids[..k])
      {
        assert ids[..k + 1] == ids[..k] + [ids[k]];
        if ids[k] in tasks {
          var task := tasks[ids[k]];
          for j := 0 to |task.handles|
            invariant aborted == HandlesListed(was, ids[..k]) + set h | h in task.handles[..j]
          {
            aborted := aborted + {task.handles[j]};
          }
          assert task.handles[..|task.handles|] == task.handles;
          tasks := tasks[ids[k] := task.(status := Completed)];
        }
        assert Contents().tasks == CompleteListed(was, ids[..k + 1]).tasks;
      }
      assert ids[..|ids|] == ids;
    }
  }
}
