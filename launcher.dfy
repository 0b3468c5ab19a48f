/**
 * The launcher's process logic: subcommand dispatch (main), the outer
 * process that creates the namespaced child and waits for it (run), the
 * re-exec bootstrap that child performs (child_main), and the isolation
 * entry point that sets up the sandbox, runs the command and maps its
 * termination (child).
 *
 * Every system call is replaced by its outcome, read from an Os record;
 * what a process did is recorded as a trace of Steps, and how it ended as
 * an exit code.
 */
module Launcher {
  import opened Wrappers
  import opened ExitStatus
  import opened BoundedFormat
  import opened Process
  import opened Reexec

  const HOSTNAME := "container"
  const ROOTFS_DIR := "ubuntu-rootfs"
  const PROC_DIR := "proc"
  const TMP_DIR := "mytemp"

  /** The exit code of a forked child whose execvp failed. */
  const EXEC_FAILURE_EXIT := 127

  /**
   * What `status` holds in child when waitpid fails: it was initialised to
   * 0, and a zero wait status decodes as a normal exit with code 0.
   */
  const ZERO_STATUS: Termination := Exited(0)

  /** The outcomes of the system calls the launcher makes, one field per call site. */
  datatype Os = Os(
    // run
    cloneOk: bool,
    runWaitOk: bool,
    // child_main, in the cloned process
    reexecAllocOk: bool,
    reexecOk: bool,
    reexecKilledBy: Option<SignalNumber>,
    // child, in the re-executed image
    sethostnameRc: int,
    unshareRc: int,
    makePrivateRc: int,
    workingDir: Option<string>,
    chrootRc: int,
    chdirRc: int,
    mountProcRc: int,
    mountTmpRc: int,
    forkOk: bool,
    execvpOk: bool,
    program: Termination,
    childWaitOk: bool,
    umountProcRc: int,
    umountTmpRc: int)

  /** The subcommands main recognises. */
  datatype Command = Usage | RunCmd | ChildCmd | Unknown(word: string)

  /** main's dispatch on argv[1]. */
  function Dispatch(argv: seq<string>): (c: Command)
    ensures c == Usage <==> |argv| < 2
    ensures c == RunCmd <==> |argv| >= 2 && argv[1] == "run"
    ensures c == ChildCmd <==> |argv| >= 2 && argv[1] == CHILD_COMMAND
    ensures c.Unknown? <==> |argv| >= 2 && argv[1] != "run" && argv[1] != CHILD_COMMAND
    ensures c.Unknown? ==> c.word == argv[1]
  {
    if |argv| < 2 then Usage
    else if argv[1] == "run" then RunCmd
    else if argv[1] == CHILD_COMMAND then ChildCmd
    else Unknown(argv[1])
  }

  /** getcwd into a PATH_MAX buffer: fails when the directory is unknown or too long. */
  function GetCwd(workingDir: Option<string>): (cwd: Option<string>)
    ensures cwd.Some? <==> workingDir.Some? && |workingDir.value| < PATH_MAX
    ensures cwd.Some? ==> cwd == workingDir
  {
    if workingDir.Some? && |workingDir.value| < PATH_MAX then workingDir else None
  }

  /**
   * The sandbox root "<cwd>/ubuntu-rootfs", formatted into a PATH_MAX
   * buffer; None ("rootfs path too long") when snprintf reports that the
   * text did not fit.
   */
  function RootfsPath(cwd: string): (path: Option<string>)
    ensures path.Some? <==> |cwd| + 1 + 13 < PATH_MAX
    ensures path.Some? ==> path.value == cwd + "/" + "ubuntu-rootfs"
  {
    var f := FormatBounded(PATH_MAX, cwd + "/" + ROOTFS_DIR);
    if f.length >= PATH_MAX then None else Some(f.text)
  }

  /**
   * The isolation steps of child up to and including the cgroup
   * enrolment: hostname, private mount namespace, root switch, the two
   * mount points and their mounts. Yields the trace so far, or the exit of
   * the first fatal failure. The ensure_dir results are discarded, and the
   * cgroup enrolment never ends the process.
   */
  function ChildSetup(os: Os): (r: Flow<seq<Step>>)
    ensures r.Halt? ==> r.outcome.code == FAILURE_EXIT && Fork !in r.outcome.trace
    ensures r.Next? ==> |r.value| >= 1 && r.value[|r.value| - 1] == JoinCgroup && Fork !in r.value
  {
    var t := [SetHostname(HOSTNAME)];
    :- Must(os.sethostnameRc, t);
    var t := t + [UnshareMounts];
    :- Must(os.unshareRc, t);
    var t := t + [MakeMountsPrivate];
    :- Must(os.makePrivateRc, t);
    var cwd :- OrDie(GetCwd(os.workingDir), t);
    var root :- OrDie(RootfsPath(cwd), t);
    var t := t + [ChangeRoot(root)];
    :- Must(os.chrootRc, t);
    var t := t + [ChangeDir("/")];
    :- Must(os.chdirRc, t);
    var t := t + [MakeDir(PROC_DIR), MakeDir(TMP_DIR)];
    var t := t + [Mount(PROC_DIR)];
    :- Must(os.mountProcRc, t);
    var t := t + [Mount(TMP_DIR)];
    :- Must(os.mountTmpRc, t);
    Next(t + [JoinCgroup])
  }

  /** The command the forked child executes: argv[2..argc). */
  function CommandTail(argv: seq<string>): (cmd: seq<string>)
    requires |argv| >= 3
    ensures |cmd| == |argv| - 2 && cmd[0] == argv[2]
    ensures forall i :: 0 <= i < |cmd| ==> cmd[i] == argv[i + 2]
  {
    argv[2..]
  }

  /** What the forked child does before it ends: nothing without a command, else one execvp. */
  function CommandSteps(argv: seq<string>): (steps: seq<Step>)
    ensures |steps| <= 1 && Fork !in steps && Wait !in steps
    ensures steps != [] <==> |argv| >= 3
    ensures |argv| >= 3 ==> steps[0].ExecCommand? && steps[0].args == argv[2..]
  {
    if |argv| < 3 then [] else [ExecCommand(CommandTail(argv))]
  }

  /**
   * How the forked child ends, as its parent's wait reports it: exit 1
   * when no command was given, 127 when execvp fails, otherwise however
   * the user program ends.
   */
  function CommandTermination(argv: seq<string>, os: Os): (t: Termination)
    ensures |argv| < 3 ==> t == Exited(FAILURE_EXIT)
    ensures |argv| >= 3 && !os.execvpOk ==> t == Exited(EXEC_FAILURE_EXIT)
    ensures |argv| >= 3 && os.execvpOk ==> t == os.program
  {
    if |argv| < 3 then Exited(FAILURE_EXIT)
    else if !os.execvpOk then Exited(EXEC_FAILURE_EXIT)
    else os.program
  }

  /**
   * child after its setup: fork, let the forked child run the command,
   * wait for it, unmount both filesystems and map the child's termination
   * to this process's exit code.
   */
  function RunCommand(argv: seq<string>, os: Os, t: seq<Step>): (r: Flow<Outcome>)
    ensures r.Halt? <==> !os.forkOk || os.umountProcRc < 0 || os.umountTmpRc < 0
    ensures r.Halt? ==> r.outcome.code == FAILURE_EXIT
    ensures r.Next? && !os.childWaitOk ==> r.value.code == 0
  {
    var t := t + [Fork];
    :- DieUnless(os.forkOk, t);
    var t := t + CommandSteps(argv) + [Wait];
    var status := if os.childWaitOk then CommandTermination(argv, os) else ZERO_STATUS;
    var t := t + [Unmount(PROC_DIR)];
    :- Must(os.umountProcRc, t);
    var t := t + [Unmount(TMP_DIR)];
    :- Must(os.umountTmpRc, t);
    Next(Outcome(HandleChildExit(status), t))
  }

  /** The isolation entry point ("child" subcommand). */
  function Child(argv: seq<string>, os: Os): (o: Outcome)
    ensures 0 <= o.code < 256
  {
    Finish(var t :- ChildSetup(os); RunCommand(argv, os, t))
  }

  /** How the cloned process ended, as run's wait reports it, and what it did. */
  datatype Reaped = Reaped(status: Termination, trace: seq<Step>)

  /** The arguments the re-executed image receives. */
  function ReexecArgsOf(argv: seq<string>): (args: seq<string>)
    requires |argv| >= 2
    ensures |args| == |argv| && args[1] == CHILD_COMMAND && args[2..] == argv[2..]
  {
    ReexecArgs(argv);
    ArgsBeforeNull(ReexecVector(argv))
  }

  /** The entry point: dispatch on the subcommand. */
  function Main(argv: seq<string>, os: Os): (o: Outcome)
    decreases if |argv| >= 2 && argv[1] == "run" then 3 else 0
    ensures 0 <= o.code < 256
    ensures Dispatch(argv).Usage? || Dispatch(argv).Unknown? ==> o == Outcome(FAILURE_EXIT, [])
  {
    match Dispatch(argv)
    case Usage => Outcome(FAILURE_EXIT, [])
    case Unknown(_) => Outcome(FAILURE_EXIT, [])
    case RunCmd => Run(argv, os)
    case ChildCmd => Child(argv, os)
  }

  /**
   * The cloned process (child_main): it dies if the new vector cannot be
   * allocated, returns 1 if execv fails, and otherwise becomes the new
   * image, which runs main again on the re-exec arguments. A process
   * killed by a signal is reported as such; its steps are not recorded.
   */
  function ReexecChild(argv: seq<string>, os: Os): (r: Reaped)
    requires |argv| >= 2
    decreases 1
    ensures !os.reexecAllocOk ==> r == Reaped(Exited(FAILURE_EXIT), [])
    ensures os.reexecAllocOk && os.reexecKilledBy.None? && !os.reexecOk ==>
              r.status == Exited(FAILURE_EXIT) && r.trace == [ReexecSelf(ReexecArgsOf(argv))]
    ensures os.reexecAllocOk && os.reexecKilledBy.Some? ==> r.status == Signaled(os.reexecKilledBy.value)
  {
    if !os.reexecAllocOk then Reaped(Exited(FAILURE_EXIT), [])
    else
      var args := ReexecArgsOf(argv);
      var t := [ReexecSelf(args)];
      if os.reexecKilledBy.Some? then Reaped(Signaled(os.reexecKilledBy.value), t)
      else if !os.reexecOk then Reaped(Exited(FAILURE_EXIT), t)
      else
        var inner := Main(args, os);
        Reaped(Reap(inner.code), t + inner.trace)
  }

  /**
   * The "run" subcommand: clone the namespaced process, wait for it and
   * map its termination to this process's exit code.
   */
  function Run(argv: seq<string>, os: Os): (o: Outcome)
    requires |argv| >= 2
    decreases 2
    ensures 0 <= o.code < 256
    ensures |o.trace| >= 2 ==> o.trace[0] == CloneNamespaces && o.trace[|o.trace| - 1] == Wait
    ensures !os.cloneOk ==> o == Outcome(FAILURE_EXIT, [CloneNamespaces])
    ensures os.cloneOk && !os.runWaitOk ==> o.code == FAILURE_EXIT
  {
    var t := [CloneNamespaces];
    if !os.cloneOk then Outcome(FAILURE_EXIT, t)
    else
      var inner := ReexecChild(argv, os);
      var t := t + inner.trace + [Wait];
      if !os.runWaitOk then Outcome(FAILURE_EXIT, t)
      else Outcome(HandleChildExit(inner.status), t)
  }

  /** Every step of child's setup succeeds and the rootfs path fits its buffer. */
  predicate SetupSucceeds(os: Os) {
    && os.sethostnameRc >= 0 && os.unshareRc >= 0 && os.makePrivateRc >= 0
    && os.workingDir.Some? && |os.workingDir.value| + 1 + 13 < PATH_MAX
    && os.chrootRc >= 0 && os.chdirRc >= 0
    && os.mountProcRc >= 0 && os.mountTmpRc >= 0
  }

  /** The fork, the wait and both unmounts of child succeed. */
  predicate RunnerSucceeds(os: Os) {
    os.forkOk && os.childWaitOk && os.umountProcRc >= 0 && os.umountTmpRc >= 0
  }

  /** Clone, allocation, re-exec and the outer wait succeed, and nothing kills the cloned process. */
  predicate LaunchSucceeds(os: Os) {
    os.cloneOk && os.reexecAllocOk && os.reexecOk && os.reexecKilledBy.None? && os.runWaitOk
  }

  /**
   * The setup goes through exactly when every call succeeds, and then it
   * performed its steps in this order: hostname, private mount namespace,
   * chroot into "<cwd>/ubuntu-rootfs", chdir "/", the two mount points,
   * the two mounts, the cgroup enrolment.
   */
  lemma SetupOrder(os: Os)
    ensures ChildSetup(os).Next? <==> SetupSucceeds(os)
    ensures ChildSetup(os).Next? ==>
      ChildSetup(os).value ==
        [SetHostname(HOSTNAME), UnshareMounts, MakeMountsPrivate,
         ChangeRoot(os.workingDir.value + "/" + ROOTFS_DIR), ChangeDir("/"),
         MakeDir(PROC_DIR), MakeDir(TMP_DIR), Mount(PROC_DIR), Mount(TMP_DIR), JoinCgroup]
  {
  }

  /**
   * A failing setup step ends child with exit 1 before anything is forked,
   * so the user program never runs.
   */
  lemma SetupFailureExitsOne(argv: seq<string>, os: Os)
    requires !SetupSucceeds(os)
    ensures Child(argv, os).code == FAILURE_EXIT
    ensures Fork !in Child(argv, os).trace
  {
  }

  /**
   * A working directory too long for "<cwd>/ubuntu-rootfs" to fit in
   * PATH_MAX ends child with exit 1 before the root is switched.
   */
  lemma RootfsTooLongExitsOne(argv: seq<string>, os: Os)
    requires os.sethostnameRc >= 0 && os.unshareRc >= 0 && os.makePrivateRc >= 0
    requires os.workingDir.Some? && |os.workingDir.value| < PATH_MAX
    requires |os.workingDir.value| + 1 + 13 >= PATH_MAX
    ensures Child(argv, os) == Outcome(FAILURE_EXIT, [SetHostname(HOSTNAME), UnshareMounts, MakeMountsPrivate])
  {
  }

  /**
   * When the tmpfs mount fails, child exits 1 with the proc filesystem
   * still mounted: no unmount is attempted.
   */
  lemma TmpfsFailureLeavesProcMounted(argv: seq<string>, os: Os)
    requires os.sethostnameRc >= 0 && os.unshareRc >= 0 && os.makePrivateRc >= 0
    requires os.workingDir.Some? && |os.workingDir.value| + 1 + 13 < PATH_MAX
    requires os.chrootRc >= 0 && os.chdirRc >= 0 && os.mountProcRc >= 0
    requires os.mountTmpRc < 0
    ensures var o := Child(argv, os);
            && o.code == FAILURE_EXIT
            && Mount(PROC_DIR) in o.trace && o.trace[|o.trace| - 1] == Mount(TMP_DIR)
            && Unmount(PROC_DIR) !in o.trace
  {
  }

  /**
   * When the fork fails, child exits 1 with both filesystems still
   * mounted: no unmount is attempted.
   */
  lemma ForkFailureLeavesMounted(argv: seq<string>, os: Os)
    requires SetupSucceeds(os) && !os.forkOk
    ensures var o := Child(argv, os);
            && o.code == FAILURE_EXIT
            && o.trace == ChildSetup(os).value + [Fork]
            && Mount(PROC_DIR) in o.trace && Mount(TMP_DIR) in o.trace
            && Unmount(PROC_DIR) !in o.trace && Unmount(TMP_DIR) !in o.trace
  {
    SetupOrder(os);
  }

  /**
   * After a successful setup and fork, child waits for the forked child
   * only after that child's own steps, and tries to unmount only after the
   * wait: proc first, then mytemp unless unmounting proc failed.
   */
  lemma UnmountAfterWait(argv: seq<string>, os: Os)
    requires SetupSucceeds(os) && os.forkOk
    ensures var o := Child(argv, os);
            var before := ChildSetup(os).value + [Fork] + CommandSteps(argv) + [Wait, Unmount(PROC_DIR)];
            o.trace == (if os.umountProcRc < 0 then before else before + [Unmount(TMP_DIR)])
  {
  }

  /**
   * With setup, fork, wait and unmounts all succeeding, child exits with
   * handle_child_exit of the forked child's termination, and the command
   * it executed is argv[2..argc).
   */
  lemma ChildMapsCommandTermination(argv: seq<string>, os: Os)
    requires SetupSucceeds(os) && RunnerSucceeds(os)
    ensures Child(argv, os).code == HandleChildExit(CommandTermination(argv, os))
    ensures |argv| >= 3 ==> ExecCommand(argv[2..]) in Child(argv, os).trace
  {
  }

  /**
   * "no command provided" is detected only in the forked child, after the
   * whole setup including the mounts and the cgroup enrolment: child then
   * exits 1.
   */
  lemma NoCommandDetectedAfterSetup(argv: seq<string>, os: Os)
    requires |argv| == 2
    requires SetupSucceeds(os) && RunnerSucceeds(os)
    ensures var o := Child(argv, os);
            && o.code == FAILURE_EXIT
            && Mount(PROC_DIR) in o.trace && Mount(TMP_DIR) in o.trace
            && JoinCgroup in o.trace && Fork in o.trace
  {
  }

  /**
   * A failed waitpid in child leaves the status word at 0, which reads as
   * a normal exit with code 0: child reports success whatever the command
   * did.
   */
  lemma WaitFailureReportsSuccess(argv: seq<string>, os: Os)
    requires SetupSucceeds(os) && os.forkOk && !os.childWaitOk
    requires os.umountProcRc >= 0 && os.umountTmpRc >= 0
    ensures Child(argv, os).code == 0
  {
  }

  /** A failing unmount ends child with exit 1, whatever the command did. */
  lemma UnmountFailureExitsOne(argv: seq<string>, os: Os)
    requires SetupSucceeds(os) && os.forkOk
    requires os.umountProcRc < 0 || os.umountTmpRc < 0
    ensures Child(argv, os).code == FAILURE_EXIT
  {
  }

  /**
   * When clone, re-exec and the outer wait succeed, the exit code of run
   * is exactly the exit code of the re-executed child process: the second
   * application of handle_child_exit changes nothing.
   */
  lemma {:induction false} RunForwardsInnerExit(argv: seq<string>, os: Os)
    requires Dispatch(argv) == RunCmd && LaunchSucceeds(os)
    ensures var args := ReexecArgsOf(argv);
            && Dispatch(args) == ChildCmd
            && Main(argv, os).code == Child(args, os).code
  {
    var args := ReexecArgsOf(argv);
    assert Dispatch(args) == ChildCmd;
    var m := Child(args, os).code;
    assert Main(args, os).code == m;
    assert ReexecChild(argv, os).status == Reap(m);
    RemapIsIdentity(Exited(m));
  }

  /**
   * Two-level propagation: when every system call succeeds, the exit code
   * the caller of "run" sees is handle_child_exit applied once to the
   * forked child's termination.
   */
  lemma {:induction false} TwoLevelPropagation(argv: seq<string>, os: Os)
    requires Dispatch(argv) == RunCmd
    requires LaunchSucceeds(os) && SetupSucceeds(os) && RunnerSucceeds(os)
    ensures Main(argv, os).code == HandleChildExit(CommandTermination(argv, os))
  {
    var args := ReexecArgsOf(argv);
    RunForwardsInnerExit(argv, os);
    ChildMapsCommandTermination(args, os);
    assert CommandTermination(args, os) == CommandTermination(argv, os);
  }

  /**
   * The exit codes the caller of "run" sees when every system call
   * succeeds: 1 without a command, 127 when the command cannot be
   * executed, the program's own code on a normal exit, 128 plus the signal
   * on death by signal.
   */
  lemma {:induction false} OuterExitCodes(argv: seq<string>, os: Os)
    requires Dispatch(argv) == RunCmd
    requires LaunchSucceeds(os) && SetupSucceeds(os) && RunnerSucceeds(os)
    ensures |argv| < 3 ==> Main(argv, os).code == FAILURE_EXIT
    ensures |argv| >= 3 && !os.execvpOk ==> Main(argv, os).code == EXEC_FAILURE_EXIT
    ensures |argv| >= 3 && os.execvpOk && os.program.Exited? ==> Main(argv, os).code == os.program.code
    ensures |argv| >= 3 && os.execvpOk && os.program.Signaled? ==>
              Main(argv, os).code == SIGNAL_BASE + os.program.sig
  {
    TwoLevelPropagation(argv, os);
  }

  /**
   * When every system call succeeds, the command tail the caller passed to
   * "run" is what the innermost process executes.
   */
  lemma {:induction false} RunExecutesCommandTail(argv: seq<string>, os: Os)
    requires Dispatch(argv) == RunCmd && |argv| >= 3
    requires LaunchSucceeds(os) && SetupSucceeds(os) && RunnerSucceeds(os)
    ensures ExecCommand(argv[2..]) in Main(argv, os).trace
  {
    var args := ReexecArgsOf(argv);
    assert Dispatch(args) == ChildCmd;
    ChildMapsCommandTermination(args, os);
    assert Main(args, os) == Child(args, os);
    var inner := ReexecChild(argv, os).trace;
    assert inner == [ReexecSelf(args)] + Child(args, os).trace;
    assert Main(argv, os).trace == [CloneNamespaces] + inner + [Wait];
  }
}
