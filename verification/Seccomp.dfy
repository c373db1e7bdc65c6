/**
 The system call filter: which rules a security policy is compiled to
 (src/core/platform/linux.rs over the lists of src/core/platform/consts.rs) and
 what those rules decide. Of several matching rules the strictest action wins.
 */
module Seccomp {
  import opened Config

  /** The system calls named by the lists, `execve`, and every other one. */
  datatype Syscall =
    | Execve | Other(number: nat) | Socket | Connect | Accept | Accept4 | Send | Sendto | Sendmsg | Sendmmsg
    | Recv | Recvfrom | Recvmsg | Recvmmsg | Bind | Listen | Setsockopt | Getsockopt | Getpeername | Getsockname
    | Sethostname | Setdomainname | Creat | Mknod | Mknodat | Mkdir | Mkdirat | Unlink | Unlinkat | Rename
    | Renameat | Renameat2 | Link | Linkat | Symlink | Symlinkat | Truncate | Ftruncate | Chmod | Fchmod
    | Fchmodat | Chown | Fchown | Fchownat | Lchown | Mount | Umount | Umount2 | PivotRoot | Write | Pwrite64
    | Read | Pread64 | Readv | Preadv | Readlink | Readlinkat | Stat | Fstat | Open | Openat | Fork | Vfork
    | Clone | Clone3 | Execveat | Prctl | Unshare | Setns | Userfaultfd | MemfdCreate | Ptrace | ProcessVmReadv
    | ProcessVmWritev | InitModule | FinitModule | DeleteModule | KexecLoad | KexecFileLoad | SchedSetscheduler
    | SchedSetparam | SchedSetaffinity | IoprioSet
    | Reboot | Syslog | Acct | Settimeofday | Swapon | Swapoff
    | Sysfs | Iopl | Shmget | Shmat | Shmctl | Shmdt | Semget | Semctl | Semop | Semtimedop | Msgget | Msgsnd
    | Msgrcv | Msgctl | MqOpen | MqUnlink

  /** The lists a filter is compiled from; what a filter means is proved for any lists. */
  datatype Lists = Lists(
    network: seq<Syscall>, fsWrite: seq<Syscall>, fsRead: seq<Syscall>, fileBasedIpc: seq<Syscall>,
    fsConditional: seq<Syscall>, processCreation: seq<Syscall>, processControl: seq<Syscall>,
    systemManipulation: seq<Syscall>, ipc: seq<Syscall>)

  // ----- rules and their meaning -----

  datatype Action = Allow | Log | Errno(code: nat) | KillProcess

  const EPERM: nat := 1
  const NO_PERM := Errno(EPERM)

  const O_ACCMODE: bv64 := 3
  const O_WRONLY: bv64 := 1
  const O_RDWR: bv64 := 2
  const CLONE_THREAD: bv64 := 0x0001_0000

  datatype Compare =
    | NotEqual(arg: nat, value: bv64)
    | Equal(arg: nat, value: bv64)
    | MaskedEqual(arg: nat, mask: bv64, value: bv64)

  datatype Rule = Rule(action: Action, syscall: Syscall, compares: seq<Compare>)

  /** The six arguments of a call. */
  type Args = s: seq<bv64> | |s| == 6 witness [0, 0, 0, 0, 0, 0]

  predicate Holds(c: Compare, args: Args) {
    c.arg < 6 &&
    match c
    case NotEqual(arg, value) => args[arg] != value
    case Equal(arg, value) => args[arg] == value
    case MaskedEqual(arg, mask, value) => args[arg] & mask == value
  }

  predicate Matches(r: Rule, call: Syscall, args: Args) {
    r.syscall == call && forall k :: 0 <= k < |r.compares| ==> Holds(r.compares[k], args)
  }

  function Severity(a: Action): nat {
    match a
    case Allow => 0
    case Log => 1
    case Errno(_) => 2
    case KillProcess => 3
  }

  function Stricter(a: Action, b: Action): Action {
    if Severity(a) < Severity(b) then b else a
  }

  /** The order in which the kernel ranks actions: killing, an error, logging, allowing. */
  lemma StricterIsTheKernelsOrder(code: nat, a: Action)
    ensures Stricter(KillProcess, a) == KillProcess == Stricter(a, KillProcess)
    ensures Stricter(Errno(code), Log) == Errno(code) == Stricter(Log, Errno(code))
    ensures Stricter(Log, Allow) == Log == Stricter(Allow, Log)
  {
  }

  /** The decision of a filter on a call; calls without a matching rule are allowed. */
  function Decide(rules: seq<Rule>, call: Syscall, args: Args): Action {
    if rules == [] then Allow
    else
      var n := |rules| - 1;
      Stricter(Decide(rules[..n], call, args), if Matches(rules[n], call, args) then rules[n].action else Allow)
  }

  lemma {:induction false} DecideConcat(a: seq<Rule>, b: seq<Rule>, call: Syscall, args: Args)
    ensures Decide(a + b, call, args) == Stricter(Decide(a, call, args), Decide(b, call, args))
  {
    if b == [] {
      assert a + b == a;
    } else {
      var n := |b| - 1;
      assert (a + b)[..|a| + n] == a + b[..n];
      DecideConcat(a, b[..n], call, args);
    }
  }

  /** No matching rule is stricter than the decision, which is that of a matching rule unless it is `Allow`. */
  lemma {:induction false} DecisionIsStrictest(rules: seq<Rule>, call: Syscall, args: Args)
    ensures forall r :: r in rules && Matches(r, call, args) ==>
              Severity(r.action) <= Severity(Decide(rules, call, args))
    ensures Decide(rules, call, args) == Allow
            || exists r :: r in rules && Matches(r, call, args) && r.action == Decide(rules, call, args)
  {
    if rules != [] {
      var n := |rules| - 1;
      DecisionIsStrictest(rules[..n], call, args);
      assert rules == rules[..n] + [rules[n]];
    }
  }

  function ListRules(calls: seq<Syscall>, action: Action): seq<Rule> {
    if calls == [] then [] else ListRules(calls[..|calls| - 1], action) + [Rule(action, calls[|calls| - 1], [])]
  }

  lemma {:induction false} DecideList(calls: seq<Syscall>, action: Action, call: Syscall, args: Args)
    ensures Decide(ListRules(calls, action), call, args) == if call in calls then action else Allow
  {
    if calls != [] {
      var n := |calls| - 1;
      DecideList(calls[..n], action, call, args);
      var rules := ListRules(calls, action);
      assert rules[..n] == ListRules(calls[..n], action) by { ListRulesLength(calls[..n], action); }
      ListRulesLength(calls, action);
      assert calls == calls[..n] + [calls[n]];
    }
  }

  lemma {:induction false} ListRulesLength(calls: seq<Syscall>, action: Action)
    ensures |ListRules(calls, action)| == |calls|
  {
    if calls != [] {
      ListRulesLength(calls[..|calls| - 1], action);
    }
  }

  lemma DecideRule(r: Rule, call: Syscall, args: Args)
    requires |r.compares| == 1
    ensures Decide([r], call, args) == if r.syscall == call && Holds(r.compares[0], args) then r.action else Allow
  {
    assert [r][..0] == [];
    assert Matches(r, call, args) <==> r.syscall == call && Holds(r.compares[0], args);
  }

  lemma DecideTwo(r: Rule, t: Rule, call: Syscall, args: Args)
    requires |r.compares| == 1 && |t.compares| == 1 && r.action == t.action == NO_PERM
    ensures Decide([r, t], call, args) == Verdict(|| (r.syscall == call && Holds(r.compares[0], args))
                                                  || (t.syscall == call && Holds(t.compares[0], args)))
  {
    DecideRule(r, call, args);
    DecideRule(t, call, args);
    DecideConcat([r], [t], call, args);
    assert [r] + [t] == [r, t];
  }

  function Verdict(forbidden: bool): Action {
    if forbidden then NO_PERM else Allow
  }

  // ----- the rules of each restriction -----

  function CloneRules(): seq<Rule> {
    [Rule(Log, Clone, [NotEqual(0, CLONE_THREAD)])]
  }

  function ThreadRules(): seq<Rule> {
    [Rule(NO_PERM, Clone, [Equal(0, CLONE_THREAD)])]
  }

  /** Opening for writing only, and for reading and writing; `arg` is the position of the flags. */
  function OpenRules(call: Syscall, arg: nat): seq<Rule> {
    [Rule(NO_PERM, call, [MaskedEqual(arg, O_ACCMODE, O_WRONLY)]),
     Rule(NO_PERM, call, [MaskedEqual(arg, O_ACCMODE, O_RDWR)])]
  }

  function NoFsRules(lists: Lists): seq<Rule> {
    ListRules(lists.fsWrite, NO_PERM) + ListRules(lists.fsRead, NO_PERM) + ListRules(lists.fsConditional, NO_PERM)
  }

  function ReadOnlyRules(lists: Lists): seq<Rule> {
    ListRules(lists.fsWrite, NO_PERM) + OpenRules(Open, 1) + OpenRules(Openat, 2)
  }

  function ProcessRules(lists: Lists): seq<Rule> {
    CloneRules() + ListRules(lists.processCreation, NO_PERM) + ListRules(lists.processControl, NO_PERM)
  }

  function IpcRules(lists: Lists): seq<Rule> {
    ListRules(lists.ipc, NO_PERM) + ListRules(lists.fileBasedIpc, NO_PERM)
  }

  function FsRules(lists: Lists, p: SecurityPolicy): seq<Rule> {
    if p.noFs then NoFsRules(lists) else if p.readOnlyFs then ReadOnlyRules(lists) else []
  }

  function When(flag: bool, rules: seq<Rule>): seq<Rule> {
    if flag then rules else []
  }

  function CompiledHead(lists: Lists, p: SecurityPolicy): seq<Rule> {
    When(p.noNet, ListRules(lists.network, NO_PERM)) + FsRules(lists, p) + When(p.noProcess, ProcessRules(lists))
  }

  function CompiledTail(lists: Lists, p: SecurityPolicy): seq<Rule> {
    When(p.noThread, ThreadRules()) + When(p.noIpc, IpcRules(lists))
    + When(p.noSysman, ListRules(lists.systemManipulation, NO_PERM))
  }

  function Compiled(lists: Lists, p: SecurityPolicy): seq<Rule> {
    CompiledHead(lists, p) + CompiledTail(lists, p)
  }

  /** The filter being built; the child adds its rules one by one. */
  class FilterContext {
    var rules: seq<Rule>

    constructor ()
      ensures rules == []
    {
      rules := [];
    }

    method AddRule(action: Action, call: Syscall, compares: seq<Compare>)
      modifies this
      ensures rules == old(rules) + [Rule(action, call, compares)]
    {
      rules := rules + [Rule(action, call, compares)];
    }

    /** The loop every restriction runs over its list. */
    method AddAll(calls: seq<Syscall>, action: Action)
      modifies this
      ensures rules == old(rules) + ListRules(calls, action)
    {
      for k := 0 to |calls|
        invariant rules == old(rules) + ListRules(calls[..k], action)
      {
        assert calls[..k + 1][..k] == calls[..k];
        AddRule(action, calls[k], []);
      }
      assert calls[..|calls|] == calls;
    }

    method ForbidOpenForWriting(call: Syscall, arg: nat)
      modifies this
      ensures rules == old(rules) + OpenRules(call, arg)
    {
      AddRule(NO_PERM, call, [MaskedEqual(arg, O_ACCMODE, O_WRONLY)]);
      AddRule(NO_PERM, call, [MaskedEqual(arg, O_ACCMODE, O_RDWR)]);
    }

    method ForbidFileSystem(lists: Lists, p: SecurityPolicy)
      modifies this
      ensures rules == old(rules) + FsRules(lists, p)
    {
      if p.noFs {
        AddAll(lists.fsWrite, NO_PERM);
        AddAll(lists.fsRead, NO_PERM);
        AddAll(lists.fsConditional, NO_PERM);
      } else if p.readOnlyFs {
        AddAll(lists.fsWrite, NO_PERM);
        ForbidOpenForWriting(Open, 1);
        ForbidOpenForWriting(Openat, 2);
      }
    }

    method ForbidProcesses(lists: Lists)
      modifies this
      ensures rules == old(rules) + ProcessRules(lists)
    {
      AddRule(Log, Clone, [NotEqual(0, CLONE_THREAD)]);
      AddAll(lists.processCreation, NO_PERM);
      AddAll(lists.processControl, NO_PERM);
    }

    method ForbidIpc(lists: Lists)
      modifies this
      ensures rules == old(rules) + IpcRules(lists)
    {
      AddAll(lists.ipc, NO_PERM);
      AddAll(lists.fileBasedIpc, NO_PERM);
    }

    method InstallHead(lists: Lists, p: SecurityPolicy)
      modifies this
      ensures rules == old(rules) + CompiledHead(lists, p)
    {
      if p.noNet {
        AddAll(lists.network, NO_PERM);
      }
      ForbidFileSystem(lists, p);
      if p.noProcess {
        ForbidProcesses(lists);
      }
    }

    method InstallTail(lists: Lists, p: SecurityPolicy)
      modifies this
      ensures rules == old(rules) + CompiledTail(lists, p)
    {
      if p.noThread {
        AddRule(NO_PERM, Clone, [Equal(0, CLONE_THREAD)]);
      }
      if p.noIpc {
        ForbidIpc(lists);
      }
      if p.noSysman {
        AddAll(lists.systemManipulation, NO_PERM);
      }
    }
  }

  /** The filter a child installs before it executes its command. */
  method InstallFilter(lists: Lists, p: SecurityPolicy) returns (ctx: FilterContext)
    ensures fresh(ctx) && ctx.rules == Compiled(lists, p)
  {
    ctx := new FilterContext();
    ctx.InstallHead(lists, p);
    assert ctx.rules == CompiledHead(lists, p);
    ctx.InstallTail(lists, p);
  }

  // ----- what a policy means -----

  predicate WriteMode(flags: bv64) {
    flags & 3 == 1 || flags & 3 == 2
  }

  /** Opening for writing or for reading and writing. */
  predicate OpensForWriting(call: Syscall, args: Args) {
    (call == Open && WriteMode(args[1])) || (call == Openat && WriteMode(args[2]))
  }

  predicate FsForbids(lists: Lists, p: SecurityPolicy, call: Syscall, args: Args) {
    || (p.noFs && (call in lists.fsWrite || call in lists.fsRead || call in lists.fsConditional))
    || (!p.noFs && p.readOnlyFs && (call in lists.fsWrite || OpensForWriting(call, args)))
  }

  predicate ProcessForbids(lists: Lists, call: Syscall) {
    call in lists.processCreation || call in lists.processControl
  }

  predicate ThreadForbids(call: Syscall, args: Args) {
    call == Clone && args[0] == CLONE_THREAD
  }

  predicate IpcForbids(lists: Lists, call: Syscall) {
    call in lists.ipc || call in lists.fileBasedIpc
  }

  /** The union of what the flags of a policy forbid, said without rules. */
  predicate Forbidden(lists: Lists, p: SecurityPolicy, call: Syscall, args: Args) {
    HeadForbids(lists, p, call, args) || TailForbids(lists, p, call, args)
  }

  predicate HeadForbids(lists: Lists, p: SecurityPolicy, call: Syscall, args: Args) {
    || (p.noNet && call in lists.network)
    || FsForbids(lists, p, call, args)
    || (p.noProcess && ProcessForbids(lists, call))
  }

  predicate TailForbids(lists: Lists, p: SecurityPolicy, call: Syscall, args: Args) {
    || (p.noThread && ThreadForbids(call, args))
    || (p.noIpc && IpcForbids(lists, call))
    || (p.noSysman && call in lists.systemManipulation)
  }

  lemma DecideBoth(a: seq<Rule>, b: seq<Rule>, forbidA: bool, forbidB: bool, call: Syscall, args: Args)
    requires Decide(a, call, args) == Verdict(forbidA) && Decide(b, call, args) == Verdict(forbidB)
    ensures Decide(a + b, call, args) == Verdict(forbidA || forbidB)
  {
    DecideConcat(a, b, call, args);
  }

  lemma DecideOpen(call: Syscall, args: Args)
    ensures Decide(OpenRules(Open, 1), call, args) == Verdict(call == Open && WriteMode(args[1]))
    ensures Decide(OpenRules(Openat, 2), call, args) == Verdict(call == Openat && WriteMode(args[2]))
  {
    var r, t := OpenRules(Open, 1), OpenRules(Openat, 2);
    DecideTwo(r[0], r[1], call, args);
    DecideTwo(t[0], t[1], call, args);
  }

  lemma DecideNoFs(lists: Lists, call: Syscall, args: Args)
    ensures Decide(NoFsRules(lists), call, args)
            == Verdict(call in lists.fsWrite || call in lists.fsRead || call in lists.fsConditional)
  {
    DecideList(lists.fsWrite, NO_PERM, call, args);
    DecideList(lists.fsRead, NO_PERM, call, args);
    DecideList(lists.fsConditional, NO_PERM, call, args);
    DecideThree(ListRules(lists.fsWrite, NO_PERM), ListRules(lists.fsRead, NO_PERM),
                ListRules(lists.fsConditional, NO_PERM),
                call in lists.fsWrite, call in lists.fsRead, call in lists.fsConditional, call, args);
  }

  lemma DecideReadOnly(lists: Lists, call: Syscall, args: Args)
    ensures Decide(ReadOnlyRules(lists), call, args) == Verdict(call in lists.fsWrite || OpensForWriting(call, args))
  {
    DecideList(lists.fsWrite, NO_PERM, call, args);
    DecideOpen(call, args);
    DecideThree(ListRules(lists.fsWrite, NO_PERM), OpenRules(Open, 1), OpenRules(Openat, 2), call in lists.fsWrite,
                call == Open && WriteMode(args[1]), call == Openat && WriteMode(args[2]), call, args);
  }

  lemma DecideFs(lists: Lists, p: SecurityPolicy, call: Syscall, args: Args)
    ensures Decide(FsRules(lists, p), call, args) == Verdict(FsForbids(lists, p, call, args))
  {
    if p.noFs {
      DecideNoFs(lists, call, args);
    } else if p.readOnlyFs {
      DecideReadOnly(lists, call, args);
    }
  }

  /** The `Log` rule for `clone` never shows where the list denies `clone`: the denial is stricter. */
  lemma DecideProcess(lists: Lists, call: Syscall, args: Args)
    requires Clone in lists.processCreation
    ensures Decide(ProcessRules(lists), call, args) == Verdict(ProcessForbids(lists, call))
  {
    var a := CloneRules();
    var b, c := ListRules(lists.processCreation, NO_PERM), ListRules(lists.processControl, NO_PERM);
    DecideRule(a[0], call, args);
    DecideList(lists.processCreation, NO_PERM, call, args);
    DecideList(lists.processControl, NO_PERM, call, args);
    DecideConcat(a, b, call, args);
    DecideConcat(a + b, c, call, args);
  }

  lemma DecideThread(call: Syscall, args: Args)
    ensures Decide(ThreadRules(), call, args) == Verdict(ThreadForbids(call, args))
  {
    DecideRule(ThreadRules()[0], call, args);
  }

  lemma DecideIpc(lists: Lists, call: Syscall, args: Args)
    ensures Decide(IpcRules(lists), call, args) == Verdict(IpcForbids(lists, call))
  {
    DecideList(lists.ipc, NO_PERM, call, args);
    DecideList(lists.fileBasedIpc, NO_PERM, call, args);
    DecideConcat(ListRules(lists.ipc, NO_PERM), ListRules(lists.fileBasedIpc, NO_PERM), call, args);
  }

  lemma DecideWhen(flag: bool, rules: seq<Rule>, forbidden: bool, call: Syscall, args: Args)
    requires Decide(rules, call, args) == Verdict(forbidden)
    ensures Decide(When(flag, rules), call, args) == Verdict(flag && forbidden)
  {
  }

  lemma DecideThree(a: seq<Rule>, b: seq<Rule>, c: seq<Rule>, forbidA: bool, forbidB: bool, forbidC: bool,
                    call: Syscall, args: Args)
    requires Decide(a, call, args) == Verdict(forbidA) && Decide(b, call, args) == Verdict(forbidB)
    requires Decide(c, call, args) == Verdict(forbidC)
    ensures Decide(a + b + c, call, args) == Verdict(forbidA || forbidB || forbidC)
  {
    DecideBoth(a, b, forbidA, forbidB, call, args);
    DecideBoth(a + b, c, forbidA || forbidB, forbidC, call, args);
  }

  lemma DecideListWhen(flag: bool, calls: seq<Syscall>, call: Syscall, args: Args)
    ensures Decide(When(flag, ListRules(calls, NO_PERM)), call, args) == Verdict(flag && call in calls)
  {
    DecideList(calls, NO_PERM, call, args);
  }

  lemma DecideThreadWhen(flag: bool, call: Syscall, args: Args)
    ensures Decide(When(flag, ThreadRules()), call, args) == Verdict(flag && ThreadForbids(call, args))
  {
    DecideThread(call, args);
  }

  lemma DecideIpcWhen(flag: bool, lists: Lists, call: Syscall, args: Args)
    ensures Decide(When(flag, IpcRules(lists)), call, args) == Verdict(flag && IpcForbids(lists, call))
  {
    DecideIpc(lists, call, args);
  }

  lemma DecideHead(lists: Lists, p: SecurityPolicy, call: Syscall, args: Args)
    requires Clone in lists.processCreation
    ensures Decide(CompiledHead(lists, p), call, args) == Verdict(HeadForbids(lists, p, call, args))
  {
    DecideListWhen(p.noNet, lists.network, call, args);
    DecideFs(lists, p, call, args);
    DecideProcess(lists, call, args);
    DecideWhen(p.noProcess, ProcessRules(lists), ProcessForbids(lists, call), call, args);
    DecideThree(When(p.noNet, ListRules(lists.network, NO_PERM)), FsRules(lists, p),
                When(p.noProcess, ProcessRules(lists)),
                p.noNet && call in lists.network, FsForbids(lists, p, call, args),
                p.noProcess && ProcessForbids(lists, call), call, args);
  }

  lemma DecideTail(lists: Lists, p: SecurityPolicy, call: Syscall, args: Args)
    ensures Decide(CompiledTail(lists, p), call, args) == Verdict(TailForbids(lists, p, call, args))
  {
    DecideThreadWhen(p.noThread, call, args);
    DecideIpcWhen(p.noIpc, lists, call, args);
    DecideListWhen(p.noSysman, lists.systemManipulation, call, args);
    DecideThree(When(p.noThread, ThreadRules()), When(p.noIpc, IpcRules(lists)),
                When(p.noSysman, ListRules(lists.systemManipulation, NO_PERM)),
                p.noThread && ThreadForbids(call, args), p.noIpc && IpcForbids(lists, call),
                p.noSysman && call in lists.systemManipulation, call, args);
  }

  lemma ForbiddenMeans(lists: Lists, p: SecurityPolicy, call: Syscall, args: Args)
    ensures Forbidden(lists, p, call, args) <==>
            || (p.noNet && call in lists.network)
            || (p.noFs && (call in lists.fsWrite || call in lists.fsRead || call in lists.fsConditional))
            || (!p.noFs && p.readOnlyFs
                && (call in lists.fsWrite || (call == Open && args[1] & 3 in {1, 2})
                    || (call == Openat && args[2] & 3 in {1, 2})))
            || (p.noProcess && (call in lists.processCreation || call in lists.processControl))
            || (p.noThread && call == Clone && args[0] == 0x1_0000)
            || (p.noIpc && (call in lists.ipc || call in lists.fileBasedIpc))
            || (p.noSysman && call in lists.systemManipulation)
  {
    FsMeans(lists, p, call, args);
  }

  lemma FsMeans(lists: Lists, p: SecurityPolicy, call: Syscall, args: Args)
    ensures FsForbids(lists, p, call, args) <==>
            || (p.noFs && (call in lists.fsWrite || call in lists.fsRead || call in lists.fsConditional))
            || (!p.noFs && p.readOnlyFs
                && (call in lists.fsWrite || (call == Open && args[1] & 3 in {1, 2})
                    || (call == Openat && args[2] & 3 in {1, 2})))
  {
    assert forall flags: bv64 :: WriteMode(flags) <==> flags & 3 in {1, 2};
  }

  /**
   The compiled filter denies a call with EPERM exactly if some flag of the policy
   forbids it, and otherwise allows it: on every system call and all 64-bit arguments.
   */
  lemma FilterMeansThePolicy(lists: Lists, p: SecurityPolicy, call: Syscall, args: Args)
    requires Clone in lists.processCreation
    ensures Decide(Compiled(lists, p), call, args) == if Forbidden(lists, p, call, args) then Errno(1) else Allow
    ensures Forbidden(lists, p, call, args) <==>
            || (p.noNet && call in lists.network)
            || (p.noFs && (call in lists.fsWrite || call in lists.fsRead || call in lists.fsConditional))
            || (!p.noFs && p.readOnlyFs
                && (call in lists.fsWrite || (call == Open && args[1] & 3 in {1, 2})
                    || (call == Openat && args[2] & 3 in {1, 2})))
            || (p.noProcess && (call in lists.processCreation || call in lists.processControl))
            || (p.noThread && call == Clone && args[0] == 0x1_0000)
            || (p.noIpc && (call in lists.ipc || call in lists.fileBasedIpc))
            || (p.noSysman && call in lists.systemManipulation)
  {
    ForbiddenMeans(lists, p, call, args);
    DecideHead(lists, p, call, args);
    DecideTail(lists, p, call, args);
    DecideBoth(CompiledHead(lists, p), CompiledTail(lists, p), HeadForbids(lists, p, call, args),
               TailForbids(lists, p, call, args), call, args);
  }

  predicate Unlisted(lists: Lists, call: Syscall) {
    && call !in lists.network && call !in lists.fsWrite && call !in lists.fsRead && call !in lists.fileBasedIpc
    && call !in lists.fsConditional && call !in lists.processControl && call !in lists.systemManipulation
    && call !in lists.ipc
  }

  predicate OpensOnlyFiles(lists: Lists, call: Syscall) {
    call !in lists.network && call !in lists.fsWrite && call !in lists.systemManipulation
  }

  /** What the shipped lists have in common with every list the properties below hold for. */
  predicate Usual(lists: Lists) {
    && Clone in lists.processCreation && Unlisted(lists, Clone)
    && Unlisted(lists, Execve) && Execve !in lists.processCreation
    && Open in lists.fsConditional && Openat in lists.fsConditional
    && OpensOnlyFiles(lists, Open) && OpensOnlyFiles(lists, Openat)
  }

  /** Every flag set in `p` is set in `q`. */
  predicate NoStricterThan(p: SecurityPolicy, q: SecurityPolicy) {
    && (p.noNet ==> q.noNet) && (p.noFs ==> q.noFs) && (p.readOnlyFs ==> q.readOnlyFs)
    && (p.noProcess ==> q.noProcess) && (p.noThread ==> q.noThread) && (p.noIpc ==> q.noIpc)
    && (p.noSysman ==> q.noSysman)
  }

  /** Setting a flag never allows anything new, although `no_fs` replaces the read-only rules. */
  lemma DenialIsMonotone(lists: Lists, p: SecurityPolicy, q: SecurityPolicy, call: Syscall, args: Args)
    requires NoStricterThan(p, q) && Usual(lists)
    ensures Decide(Compiled(lists, p), call, args) == Errno(EPERM)
            ==> Decide(Compiled(lists, q), call, args) == Errno(EPERM)
  {
    FilterMeansThePolicy(lists, p, call, args);
    FilterMeansThePolicy(lists, q, call, args);
    ForbiddenIsMonotone(lists, p, q, call, args);
  }

  lemma ForbiddenIsMonotone(lists: Lists, p: SecurityPolicy, q: SecurityPolicy, call: Syscall, args: Args)
    requires NoStricterThan(p, q) && Open in lists.fsConditional && Openat in lists.fsConditional
    ensures Forbidden(lists, p, call, args) ==> Forbidden(lists, q, call, args)
  {
    assert FsForbids(lists, p, call, args) ==> FsForbids(lists, q, call, args);
  }

  /** No policy keeps a child from executing its own command. */
  lemma ExecveIsNeverDenied(lists: Lists, p: SecurityPolicy, args: Args)
    requires Usual(lists)
    ensures Decide(Compiled(lists, p), Execve, args) == Allow
  {
    FilterMeansThePolicy(lists, p, Execve, args);
  }

  /** Under the read-only profile `open` and `openat` fail exactly for the two writing access modes. */
  lemma ReadOnlyMeansNoWriteAccess(lists: Lists, call: Syscall, args: Args)
    requires Usual(lists) && (call == Open || call == Openat)
    ensures Decide(Compiled(lists, FromProfile(ReadOnly)), call, args) != Allow
            <==> args[if call == Open then 1 else 2] & 3 in {1, 2}
  {
    FilterMeansThePolicy(lists, FromProfile(ReadOnly), call, args);
  }

  /**
   `no_thread` alone denies a `clone` exactly if its flags are the thread flag and
   nothing else; a `clone` that sets the thread flag beside others goes through.
   */
  lemma NoThreadDeniesOnlyTheBareFlag(lists: Lists, p: SecurityPolicy, args: Args)
    requires Usual(lists) && p.noThread && !p.noProcess
    ensures Decide(Compiled(lists, p), Clone, args) != Allow <==> args[0] == CLONE_THREAD
  {
    FilterMeansThePolicy(lists, p, Clone, args);
    assert !HeadForbids(lists, p, Clone, args);
    assert TailForbids(lists, p, Clone, args) == ThreadForbids(Clone, args);
  }

  /** A call on no list but that of process creation passes while processes may be created. */
  lemma OnlyCreationDeniesUnlisted(lists: Lists, p: SecurityPolicy, call: Syscall, args: Args)
    requires Clone in lists.processCreation && Unlisted(lists, call)
    requires call != Open && call != Openat && call != Clone && !p.noProcess
    ensures Decide(Compiled(lists, p), call, args) == Allow
  {
    FilterMeansThePolicy(lists, p, call, args);
    assert !HeadForbids(lists, p, call, args);
    assert !TailForbids(lists, p, call, args);
  }

  lemma ProfileOrder(lists: Lists, a: SecurityProfile, b: SecurityProfile, call: Syscall, args: Args)
    requires Usual(lists) && NoStricterThan(FromProfile(a), FromProfile(b))
    ensures NoStricterProfile(lists, a, b, call, args)
  {
    DenialIsMonotone(lists, FromProfile(a), FromProfile(b), call, args);
  }

  predicate NoStricterProfile(lists: Lists, a: SecurityProfile, b: SecurityProfile, call: Syscall, args: Args) {
    Decide(Compiled(lists, FromProfile(a)), call, args) == Errno(EPERM)
    ==> Decide(Compiled(lists, FromProfile(b)), call, args) == Errno(EPERM)
  }

  // ----- what each profile denies -----

  /** Opening a file for writing, or for reading and writing. */
  predicate OpensToWrite(call: Syscall, args: Args) {
    (call == Open && args[1] & 3 in {1, 2}) || (call == Openat && args[2] & 3 in {1, 2})
  }

  function Answer(denied: bool): Action {
    if denied then Errno(1) else Allow
  }

  lemma DefaultAndCustomDeny(lists: Lists, call: Syscall, args: Args)
    requires Clone in lists.processCreation
    ensures Decide(Compiled(lists, FromProfile(Default)), call, args) == Answer(call in lists.systemManipulation)
    ensures Decide(Compiled(lists, FromProfile(Custom)), call, args) == Answer(call in lists.systemManipulation)
  {
    OnlySysmanDenies(lists, FromProfile(Default), call, args);
    OnlySysmanDenies(lists, FromProfile(Custom), call, args);
  }

  lemma OnlySysmanDenies(lists: Lists, p: SecurityPolicy, call: Syscall, args: Args)
    requires Clone in lists.processCreation && p.noSysman
    requires !p.noNet && !p.noFs && !p.readOnlyFs && !p.noProcess && !p.noThread && !p.noIpc
    ensures Decide(Compiled(lists, p), call, args) == Answer(call in lists.systemManipulation)
  {
    FilterMeansThePolicy(lists, p, call, args);
  }

  lemma ReadOnlyDenies(lists: Lists, call: Syscall, args: Args)
    requires Clone in lists.processCreation
    ensures Decide(Compiled(lists, FromProfile(ReadOnly)), call, args)
            == Answer(call in lists.fsWrite || OpensToWrite(call, args) || call in lists.systemManipulation)
  {
    FilterMeansThePolicy(lists, FromProfile(ReadOnly), call, args);
  }

  predicate IsolatedFrom(lists: Lists, call: Syscall) {
    || call in lists.network || call in lists.processCreation || call in lists.processControl
    || call in lists.ipc || call in lists.fileBasedIpc || call in lists.systemManipulation
  }

  lemma IsolatedDenies(lists: Lists, call: Syscall, args: Args)
    requires Clone in lists.processCreation
    ensures Decide(Compiled(lists, FromProfile(Isolated)), call, args) == Answer(IsolatedFrom(lists, call))
  {
    FilterMeansThePolicy(lists, FromProfile(Isolated), call, args);
  }

  /** Sandboxed adds only the read-only file system: `clone` is denied outright, so its thread rule adds nothing. */
  lemma SandboxedDenies(lists: Lists, call: Syscall, args: Args)
    requires Clone in lists.processCreation
    ensures Decide(Compiled(lists, FromProfile(Sandboxed)), call, args)
            == Answer(IsolatedFrom(lists, call) || call in lists.fsWrite || OpensToWrite(call, args))
  {
    FilterMeansThePolicy(lists, FromProfile(Sandboxed), call, args);
  }

  /** A policy with `no_fs` alone beside the default. */
  lemma NoFsDenies(lists: Lists, call: Syscall, args: Args)
    requires Clone in lists.processCreation
    ensures Decide(Compiled(lists, FromProfile(Default).(noFs := true)), call, args)
            == Answer(call in lists.fsWrite || call in lists.fsRead || call in lists.fsConditional
                      || call in lists.systemManipulation)
  {
    FilterMeansThePolicy(lists, FromProfile(Default).(noFs := true), call, args);
  }

  /** A policy is refused exactly if it asks for both; compiled all the same, `no_fs` takes precedence. */
  lemma NoFsTakesPrecedence(lists: Lists, p: SecurityPolicy)
    ensures !ValidPolicy(p) <==> p.noFs && p.readOnlyFs
    ensures p.noFs ==> Compiled(lists, p) == Compiled(lists, p.(readOnlyFs := false))
  {
  }
}
