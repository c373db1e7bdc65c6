/**
 The lists of system calls the program ships (src/core/platform/consts.rs), and
 what the filters compiled from them decide.
 */
module SyscallLists {
  import opened Config
  import opened Seccomp

  const NETWORK_SYSCALLS: seq<Syscall> := [
    Socket, Connect, Accept, Accept4, Send, Sendto, Sendmsg, Sendmmsg, Recv, Recvfrom, Recvmsg, Recvmmsg, Bind,
    Listen, Setsockopt, Getsockopt, Getpeername, Getsockname, Sethostname, Setdomainname]

  const FS_WRITE_SYSCALLS: seq<Syscall> := [
    Creat, Mknod, Mknodat, Mkdir, Mkdirat, Unlink, Unlinkat, Rename, Renameat, Renameat2, Link, Linkat,
    Symlink, Symlinkat, Truncate, Ftruncate, Chmod, Fchmod, Fchmodat, Chown, Fchown, Fchownat, Lchown, Mount,
    Umount, Umount2, PivotRoot, Write, Pwrite64]

  const FS_READ_SYSCALLS: seq<Syscall> := [Read, Pread64, Readv, Preadv, Readlink, Readlinkat, Stat, Fstat]

  const FILE_BASED_IPC_SYSCALLS: seq<Syscall> := [Mknod, Mknodat, Open, Openat, Unlink]

  const FS_CONDITIONAL_SYSCALLS: seq<Syscall> := [Open, Openat]

  const PROCESS_CREATION_SYSCALLS: seq<Syscall> := [
    Fork, Vfork, Clone, Clone3, Execveat, Prctl, Unshare, Setns, Userfaultfd, MemfdCreate]

  const PROCESS_CONTROL_SYSCALLS: seq<Syscall> := [
    Ptrace, ProcessVmReadv, ProcessVmWritev, InitModule, FinitModule, DeleteModule, KexecLoad, KexecFileLoad,
    SchedSetscheduler, SchedSetparam, SchedSetaffinity, IoprioSet]

  const SYSTEM_MANIPULATION_SYSCALLS: seq<Syscall> := [
    Reboot, Syslog, Acct, Settimeofday, Swapon, Swapoff, Sysfs, Sethostname, Setdomainname, Iopl]

  const IPC_SYSCALLS: seq<Syscall> := [
    Shmget, Shmat, Shmctl, Shmdt, Semget, Semctl, Semop, Semtimedop, Msgget, Msgsnd, Msgrcv, Msgctl, MqOpen,
    MqUnlink]

  const LISTS := Lists(
    NETWORK_SYSCALLS, FS_WRITE_SYSCALLS, FS_READ_SYSCALLS, FILE_BASED_IPC_SYSCALLS, FS_CONDITIONAL_SYSCALLS,
    PROCESS_CREATION_SYSCALLS, PROCESS_CONTROL_SYSCALLS, SYSTEM_MANIPULATION_SYSCALLS, IPC_SYSCALLS)

  lemma NetworkSpares(call: Syscall)
    requires call == Clone || call == Clone3 || call == Execve || call == Open || call == Openat
    ensures call !in NETWORK_SYSCALLS
  {
  }

  lemma FsWriteSpares(call: Syscall)
    requires call == Clone || call == Clone3 || call == Execve || call == Open || call == Openat
    ensures call !in FS_WRITE_SYSCALLS
  {
  }

  lemma FsReadSpares(call: Syscall)
    requires call == Clone || call == Clone3 || call == Execve || call == Open || call == Openat
    ensures call !in FS_READ_SYSCALLS
  {
  }

  lemma SystemManipulationSpares(call: Syscall)
    requires call == Clone || call == Clone3 || call == Execve || call == Open || call == Openat
    ensures call !in SYSTEM_MANIPULATION_SYSCALLS
  {
  }

  lemma ProcessControlSpares(call: Syscall)
    requires call == Clone || call == Clone3 || call == Execve || call == Open || call == Openat
    ensures call !in PROCESS_CONTROL_SYSCALLS
  {
  }

  lemma IpcSpares(call: Syscall)
    requires call == Clone || call == Clone3 || call == Execve || call == Open || call == Openat
    ensures call !in IPC_SYSCALLS
  {
  }

  lemma FileBasedIpcSpares(call: Syscall)
    requires call == Clone || call == Clone3 || call == Execve
    ensures call !in FILE_BASED_IPC_SYSCALLS
  {
  }

  lemma FsConditionalSpares(call: Syscall)
    requires call == Clone || call == Clone3 || call == Execve
    ensures call !in FS_CONDITIONAL_SYSCALLS
  {
  }

  lemma ProcessCreationSparesOnlyExecve()
    ensures Clone in PROCESS_CREATION_SYSCALLS && Execve !in PROCESS_CREATION_SYSCALLS
  {
    assert PROCESS_CREATION_SYSCALLS[2] == Clone;
  }

  lemma FsConditionalIsOpening()
    ensures Open in FS_CONDITIONAL_SYSCALLS && Openat in FS_CONDITIONAL_SYSCALLS
  {
    assert FS_CONDITIONAL_SYSCALLS[0] == Open && FS_CONDITIONAL_SYSCALLS[1] == Openat;
  }

  lemma NobodyLists(call: Syscall)
    requires call == Clone || call == Clone3 || call == Execve
    ensures Unlisted(LISTS, call)
  {
    NetworkSpares(call);
    FsWriteSpares(call);
    FsReadSpares(call);
    SystemManipulationSpares(call);
    ProcessControlSpares(call);
    IpcSpares(call);
    FileBasedIpcSpares(call);
    FsConditionalSpares(call);
  }

  lemma OpeningOnlyOpens(call: Syscall)
    requires call == Open || call == Openat
    ensures OpensOnlyFiles(LISTS, call)
  {
    NetworkSpares(call);
    FsWriteSpares(call);
    SystemManipulationSpares(call);
  }

  /** What is proved of all usual lists holds of the shipped ones. */
  lemma ShippedListsAreUsual()
    ensures Usual(LISTS)
  {
    NobodyLists(Clone);
    NobodyLists(Execve);
    OpeningOnlyOpens(Open);
    OpeningOnlyOpens(Openat);
    ProcessCreationSparesOnlyExecve();
    FsConditionalIsOpening();
  }

  /** What the filter of any policy decides about any call, over the shipped lists. */
  lemma ShippedFiltersMeanThePolicy(p: SecurityPolicy, call: Syscall, args: Args)
    ensures Decide(Compiled(LISTS, p), call, args) == Answer(Forbidden(LISTS, p, call, args))
  {
    ShippedListsAreUsual();
    FilterMeansThePolicy(LISTS, p, call, args);
  }

  /** The calls of the network, and those that set the host's names. */
  predicate IsNetwork(call: Syscall) {
    || call.Socket? || call.Connect? || call.Accept? || call.Accept4? || call.Send? || call.Sendto?
    || call.Sendmsg? || call.Sendmmsg? || call.Recv? || call.Recvfrom? || call.Recvmsg? || call.Recvmmsg?
    || call.Bind? || call.Listen? || call.Setsockopt? || call.Getsockopt? || call.Getpeername?
    || call.Getsockname? || call.Sethostname? || call.Setdomainname?
  }

  lemma NetworkIsListed(call: Syscall)
    ensures call in NETWORK_SYSCALLS <==> IsNetwork(call)
  {
    if IsNetwork(call) {
      NetworkIsInTheList(call);
    }
    if call in NETWORK_SYSCALLS {
      NetworkIsAllOfTheList(call);
    }
  }

  lemma NetworkIsInTheList(call: Syscall)
    requires IsNetwork(call)
    ensures call in NETWORK_SYSCALLS
  {
  }

  lemma NetworkIsAllOfTheList(call: Syscall)
    requires call in NETWORK_SYSCALLS
    ensures IsNetwork(call)
  {
    var k :| 0 <= k < |NETWORK_SYSCALLS| && NETWORK_SYSCALLS[k] == call;
  }

  /** The calls that change the file system. */
  predicate IsFsWrite(call: Syscall) {
    || call.Creat? || call.Mknod? || call.Mknodat? || call.Mkdir? || call.Mkdirat? || call.Unlink?
    || call.Unlinkat? || call.Rename? || call.Renameat? || call.Renameat2? || call.Link? || call.Linkat?
    || call.Symlink? || call.Symlinkat? || call.Truncate? || call.Ftruncate? || call.Chmod? || call.Fchmod?
    || call.Fchmodat? || call.Chown? || call.Fchown? || call.Fchownat? || call.Lchown? || call.Mount?
    || call.Umount? || call.Umount2? || call.PivotRoot? || call.Write? || call.Pwrite64?
  }

  lemma FsWriteIsListed(call: Syscall)
    ensures call in FS_WRITE_SYSCALLS <==> IsFsWrite(call)
  {
    if IsFsWrite(call) {
      FsWriteIsInTheList(call);
    }
    if call in FS_WRITE_SYSCALLS {
      FsWriteIsAllOfTheList(call);
    }
  }

  lemma FsWriteIsInTheList(call: Syscall)
    requires IsFsWrite(call)
    ensures call in FS_WRITE_SYSCALLS
  {
  }

  lemma FsWriteIsAllOfTheList(call: Syscall)
    requires call in FS_WRITE_SYSCALLS
    ensures IsFsWrite(call)
  {
    var k :| 0 <= k < |FS_WRITE_SYSCALLS| && FS_WRITE_SYSCALLS[k] == call;
  }

  /** The calls that reach FIFOs and socket files. */
  predicate IsFileBasedIpc(call: Syscall) {
    || call.Mknod? || call.Mknodat? || call.Open? || call.Openat? || call.Unlink?
  }

  lemma FileBasedIpcIsListed(call: Syscall)
    ensures call in FILE_BASED_IPC_SYSCALLS <==> IsFileBasedIpc(call)
  {
    if IsFileBasedIpc(call) {
      FileBasedIpcIsInTheList(call);
    }
    if call in FILE_BASED_IPC_SYSCALLS {
      FileBasedIpcIsAllOfTheList(call);
    }
  }

  lemma FileBasedIpcIsInTheList(call: Syscall)
    requires IsFileBasedIpc(call)
    ensures call in FILE_BASED_IPC_SYSCALLS
  {
  }

  lemma FileBasedIpcIsAllOfTheList(call: Syscall)
    requires call in FILE_BASED_IPC_SYSCALLS
    ensures IsFileBasedIpc(call)
  {
    var k :| 0 <= k < |FILE_BASED_IPC_SYSCALLS| && FILE_BASED_IPC_SYSCALLS[k] == call;
  }

  /** The calls that make or reshape processes. */
  predicate IsProcessCreation(call: Syscall) {
    || call.Fork? || call.Vfork? || call.Clone? || call.Clone3? || call.Execveat? || call.Prctl?
    || call.Unshare? || call.Setns? || call.Userfaultfd? || call.MemfdCreate?
  }

  lemma ProcessCreationIsListed(call: Syscall)
    ensures call in PROCESS_CREATION_SYSCALLS <==> IsProcessCreation(call)
  {
    if IsProcessCreation(call) {
      ProcessCreationIsInTheList(call);
    }
    if call in PROCESS_CREATION_SYSCALLS {
      ProcessCreationIsAllOfTheList(call);
    }
  }

  lemma ProcessCreationIsInTheList(call: Syscall)
    requires IsProcessCreation(call)
    ensures call in PROCESS_CREATION_SYSCALLS
  {
  }

  lemma ProcessCreationIsAllOfTheList(call: Syscall)
    requires call in PROCESS_CREATION_SYSCALLS
    ensures IsProcessCreation(call)
  {
    var k :| 0 <= k < |PROCESS_CREATION_SYSCALLS| && PROCESS_CREATION_SYSCALLS[k] == call;
  }

  /** The calls that control processes and the kernel's modules. */
  predicate IsProcessControl(call: Syscall) {
    || call.Ptrace? || call.ProcessVmReadv? || call.ProcessVmWritev? || call.InitModule? || call.FinitModule?
    || call.DeleteModule? || call.KexecLoad? || call.KexecFileLoad? || call.SchedSetscheduler?
    || call.SchedSetparam? || call.SchedSetaffinity? || call.IoprioSet?
  }

  lemma ProcessControlIsListed(call: Syscall)
    ensures call in PROCESS_CONTROL_SYSCALLS <==> IsProcessControl(call)
  {
    if IsProcessControl(call) {
      ProcessControlIsInTheList(call);
    }
    if call in PROCESS_CONTROL_SYSCALLS {
      ProcessControlIsAllOfTheList(call);
    }
  }

  lemma ProcessControlIsInTheList(call: Syscall)
    requires IsProcessControl(call)
    ensures call in PROCESS_CONTROL_SYSCALLS
  {
  }

  lemma ProcessControlIsAllOfTheList(call: Syscall)
    requires call in PROCESS_CONTROL_SYSCALLS
    ensures IsProcessControl(call)
  {
    var k :| 0 <= k < |PROCESS_CONTROL_SYSCALLS| && PROCESS_CONTROL_SYSCALLS[k] == call;
  }

  /** The calls that manipulate the system. */
  predicate IsSystemManipulation(call: Syscall) {
    || call.Reboot? || call.Syslog? || call.Acct? || call.Settimeofday? || call.Swapon? || call.Swapoff?
    || call.Sysfs? || call.Sethostname? || call.Setdomainname? || call.Iopl?
  }

  lemma SystemManipulationIsListed(call: Syscall)
    ensures call in SYSTEM_MANIPULATION_SYSCALLS <==> IsSystemManipulation(call)
  {
    if IsSystemManipulation(call) {
      SystemManipulationIsInTheList(call);
    }
    if call in SYSTEM_MANIPULATION_SYSCALLS {
      SystemManipulationIsAllOfTheList(call);
    }
  }

  lemma SystemManipulationIsInTheList(call: Syscall)
    requires IsSystemManipulation(call)
    ensures call in SYSTEM_MANIPULATION_SYSCALLS
  {
  }

  lemma SystemManipulationIsAllOfTheList(call: Syscall)
    requires call in SYSTEM_MANIPULATION_SYSCALLS
    ensures IsSystemManipulation(call)
  {
    var k :| 0 <= k < |SYSTEM_MANIPULATION_SYSCALLS| && SYSTEM_MANIPULATION_SYSCALLS[k] == call;
  }

  /** The System V and POSIX interprocess communication. */
  predicate IsIpc(call: Syscall) {
    || call.Shmget? || call.Shmat? || call.Shmctl? || call.Shmdt? || call.Semget? || call.Semctl?
    || call.Semop? || call.Semtimedop? || call.Msgget? || call.Msgsnd? || call.Msgrcv? || call.Msgctl?
    || call.MqOpen? || call.MqUnlink?
  }

  lemma IpcIsListed(call: Syscall)
    ensures call in IPC_SYSCALLS <==> IsIpc(call)
  {
    if IsIpc(call) {
      IpcIsInTheList(call);
    }
    if call in IPC_SYSCALLS {
      IpcIsAllOfTheList(call);
    }
  }

  lemma IpcIsInTheList(call: Syscall)
    requires IsIpc(call)
    ensures call in IPC_SYSCALLS
  {
  }

  lemma IpcIsAllOfTheList(call: Syscall)
    requires call in IPC_SYSCALLS
    ensures IsIpc(call)
  {
    var k :| 0 <= k < |IPC_SYSCALLS| && IPC_SYSCALLS[k] == call;
  }

  /** The calls that read files. */
  predicate IsFsRead(call: Syscall) {
    || call.Read? || call.Pread64? || call.Readv? || call.Preadv? || call.Readlink? || call.Readlinkat?
    || call.Stat? || call.Fstat?
  }

  lemma FsReadIsListed(call: Syscall)
    ensures call in FS_READ_SYSCALLS <==> IsFsRead(call)
    ensures call in FS_CONDITIONAL_SYSCALLS <==> call.Open? || call.Openat?
  {
    if call in FS_READ_SYSCALLS {
      var k :| 0 <= k < |FS_READ_SYSCALLS| && FS_READ_SYSCALLS[k] == call;
    }
  }

  lemma ShippedNoFsDenies(call: Syscall, args: Args)
    ensures Decide(Compiled(LISTS, FromProfile(Default).(noFs := true)), call, args)
            == Answer(IsFsWrite(call) || IsFsRead(call) || call.Open? || call.Openat? || IsSystemManipulation(call))
  {
    ShippedListsAreUsual();
    NoFsDenies(LISTS, call, args);
    FsWriteIsListed(call);
    FsReadIsListed(call);
    SystemManipulationIsListed(call);
  }

  /** What each profile denies, on every call and all arguments; everything else it allows. */
  lemma ShippedDefaultAndCustomDeny(call: Syscall, args: Args)
    ensures Decide(Compiled(LISTS, FromProfile(Default)), call, args) == Answer(IsSystemManipulation(call))
    ensures Decide(Compiled(LISTS, FromProfile(Custom)), call, args) == Answer(IsSystemManipulation(call))
  {
    ShippedListsAreUsual();
    DefaultAndCustomDeny(LISTS, call, args);
    SystemManipulationIsListed(call);
  }

  lemma ShippedReadOnlyDenies(call: Syscall, args: Args)
    ensures Decide(Compiled(LISTS, FromProfile(ReadOnly)), call, args)
            == Answer(IsFsWrite(call) || OpensToWrite(call, args) || IsSystemManipulation(call))
  {
    ShippedListsAreUsual();
    ReadOnlyDenies(LISTS, call, args);
    FsWriteIsListed(call);
    SystemManipulationIsListed(call);
  }

  lemma IsolationIsListed(call: Syscall)
    ensures IsolatedFrom(LISTS, call) <==>
            || IsNetwork(call) || IsProcessCreation(call) || IsProcessControl(call) || IsIpc(call)
            || IsFileBasedIpc(call) || IsSystemManipulation(call)
  {
    NetworkIsListed(call);
    ProcessCreationIsListed(call);
    ProcessControlIsListed(call);
    IpcIsListed(call);
    FileBasedIpcIsListed(call);
    SystemManipulationIsListed(call);
  }

  lemma ShippedIsolatedDenies(call: Syscall, args: Args)
    ensures Decide(Compiled(LISTS, FromProfile(Isolated)), call, args)
            == Answer(IsNetwork(call) || IsProcessCreation(call) || IsProcessControl(call) || IsIpc(call)
                      || IsFileBasedIpc(call) || IsSystemManipulation(call))
  {
    ShippedListsAreUsual();
    IsolatedDenies(LISTS, call, args);
    IsolationIsListed(call);
  }

  lemma ShippedSandboxedDenies(call: Syscall, args: Args)
    ensures Decide(Compiled(LISTS, FromProfile(Sandboxed)), call, args)
            == Answer(IsNetwork(call) || IsProcessCreation(call) || IsProcessControl(call) || IsIpc(call)
                      || IsFileBasedIpc(call) || IsSystemManipulation(call)
                      || IsFsWrite(call) || OpensToWrite(call, args))
  {
    ShippedListsAreUsual();
    SandboxedDenies(LISTS, call, args);
    IsolationIsListed(call);
    FsWriteIsListed(call);
  }

  /** The profiles are ordered: sandboxed denies what isolated and read-only deny, and those what default denies. */
  lemma ProfilesAreOrdered(call: Syscall, args: Args)
    ensures NoStricterProfile(LISTS, Default, Isolated, call, args)
    ensures NoStricterProfile(LISTS, Isolated, Sandboxed, call, args)
    ensures NoStricterProfile(LISTS, Default, ReadOnly, call, args)
    ensures NoStricterProfile(LISTS, ReadOnly, Sandboxed, call, args)
  {
    ShippedListsAreUsual();
    ProfileOrder(LISTS, Default, Isolated, call, args);
    ProfileOrder(LISTS, Isolated, Sandboxed, call, args);
    ProfileOrder(LISTS, Default, ReadOnly, call, args);
    ProfileOrder(LISTS, ReadOnly, Sandboxed, call, args);
  }

  /** Every child can execute its command, under every policy. */
  lemma ShippedFiltersAllowExecve(p: SecurityPolicy, args: Args)
    ensures Decide(Compiled(LISTS, p), Execve, args) == Allow
  {
    ShippedListsAreUsual();
    ExecveIsNeverDenied(LISTS, p, args);
  }

  /** The flags glibc gives `clone` when it creates a thread. */
  const PTHREAD_FLAGS: bv64 := 0x003d_0f00

  lemma PthreadFlagsAskForAThread()
    ensures PTHREAD_FLAGS & CLONE_THREAD == CLONE_THREAD && PTHREAD_FLAGS != CLONE_THREAD
  {
  }

  /**
   `no_thread` without `no_process` lets every `clone3` pass, and a `clone` with the
   flags of a new thread: it does not keep a process to one thread.
   */
  lemma NoThreadLetsThreadsPass(p: SecurityPolicy, args: Args)
    requires p.noThread && !p.noProcess
    ensures Decide(Compiled(LISTS, p), Clone3, args) == Allow
    ensures args[0] == PTHREAD_FLAGS ==> Decide(Compiled(LISTS, p), Clone, args) == Allow
  {
    ShippedListsAreUsual();
    NobodyLists(Clone3);
    OnlyCreationDeniesUnlisted(LISTS, p, Clone3, args);
    NoThreadDeniesOnlyTheBareFlag(LISTS, p, args);
    PthreadFlagsAskForAThread();
  }
}
