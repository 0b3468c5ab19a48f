/**
 * The exit policy of the launcher (die / must) and the record of what a
 * process did before it exited.
 *
 * Every fatal error is handled where it is detected: the process prints a
 * diagnostic and exits with 1. A computation that may die is a Flow: it
 * either goes on with a value or has already ended the process, and `:-`
 * threads the second case through.
 */
module Process {
  import opened Wrappers

  /** The effects a process performs on the kernel, in order. */
  datatype Step =
    | CloneNamespaces                    // clone with new UTS, PID and mount namespaces
    | ReexecSelf(args: seq<string>)      // execv of the own image
    | SetHostname(name: string)
    | UnshareMounts                      // unshare(CLONE_NEWNS)
    | MakeMountsPrivate                  // mount(NULL, "/", MS_REC | MS_PRIVATE)
    | ChangeRoot(path: string)           // chroot
    | ChangeDir(path: string)            // chdir
    | MakeDir(path: string)              // ensure_dir, result discarded
    | Mount(target: string)
    | JoinCgroup                         // cg_join_and_limit
    | Fork
    | ExecCommand(args: seq<string>)     // execvp in the forked child
    | Wait                               // waitpid
    | Unmount(target: string)            // umount2

  /** How a process ended: its exit code and the steps it performed. */
  datatype Outcome = Outcome(code: int, trace: seq<Step>)

  /** The exit code of every fatal error (die). */
  const FAILURE_EXIT := 1

  /** A computation that either continues with a value or has ended the process. */
  datatype Flow<+T> = Next(value: T) | Halt(outcome: Outcome) {
    predicate IsFailure() {
      Halt?
    }

    function PropagateFailure<U>(): Flow<U>
      requires Halt?
    {
      Halt(outcome)
    }

    function Extract(): T
      requires Next?
    {
      value
    }
  }

  /** A check that either lets the process go on or has ended it. */
  datatype Check = Pass | Fail(outcome: Outcome) {
    predicate IsFailure() {
      Fail?
    }

    function PropagateFailure<U>(): Flow<U>
      requires Fail?
    {
      Halt(outcome)
    }
  }

  /** die(...): the process ends with exit code 1 after the steps in `trace`. */
  function Die(trace: seq<Step>): (o: Outcome)
    ensures o.code == FAILURE_EXIT && o.trace == trace
  {
    Outcome(FAILURE_EXIT, trace)
  }

  /** The process dies unless `ok` holds. */
  function DieUnless(ok: bool, trace: seq<Step>): (c: Check)
    ensures c.Pass? <==> ok
    ensures c.Fail? ==> c.outcome == Die(trace)
  {
    if ok then Pass else Fail(Die(trace))
  }

  /**
   * must(rc, what): dies (exit 1) exactly when rc < 0, otherwise lets the
   * process go on with nothing changed.
   */
  function Must(rc: int, trace: seq<Step>): (c: Check)
    ensures c.Fail? <==> rc < 0
    ensures c.Fail? ==> c.outcome.code == FAILURE_EXIT && c.outcome.trace == trace
  {
    DieUnless(rc >= 0, trace)
  }

  /** A lookup that dies when it finds nothing (getcwd, the rootfs path). */
  function OrDie<T>(o: Option<T>, trace: seq<Step>): (r: Flow<T>)
    ensures r.Next? <==> o.Some?
    ensures r.Next? ==> r.value == o.value
    ensures r.Halt? ==> r.outcome == Die(trace)
  {
    match o
    case Some(v) => Next(v)
    case None => Halt(Die(trace))
  }

  /** The exit of a process whose last stage either died or finished. */
  function Finish(f: Flow<Outcome>): (o: Outcome)
    ensures f.Halt? ==> o == f.outcome
    ensures f.Next? ==> o == f.value
  {
    match f
    case Next(o) => o
    case Halt(o) => o
  }
}
