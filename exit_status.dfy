/**
 * How a child's termination becomes this process's exit code
 * (handle_child_exit), and how an exit code is seen again by the parent.
 *
 * The libc wait-status word is not modelled bit by bit: a termination is
 * one of the three cases the WIFEXITED / WIFSIGNALED macros distinguish.
 */
module ExitStatus {

  /** An exit code as a parent's wait reports it (WEXITSTATUS keeps 8 bits). */
  type ExitByte = c: int | 0 <= c < 256

  /**
   * A terminating signal as WTERMSIG reports it: 7 bits, never 0, and
   * never 0x7f, which marks a stopped child instead.
   */
  type SignalNumber = s: int | 1 <= s < 0x7f witness 1

  /** Why a child stopped running, as its parent observes it. */
  datatype Termination =
    | Exited(code: ExitByte)        // WIFEXITED
    | Signaled(sig: SignalNumber)   // WIFSIGNALED
    | Other                         // neither (stopped, continued, ...)

  /** Offset added to a signal number to form an exit code. */
  const SIGNAL_BASE := 128

  /** Exit code used when a child's termination is neither an exit nor a signal. */
  const UNKNOWN_TERMINATION_EXIT := 1

  /**
   * The exit code handle_child_exit passes to exit(): the child's own code
   * on a normal exit, 128 plus the signal on death by signal, 1 otherwise.
   * Every result is a byte, so exit() never truncates it.
   */
  function HandleChildExit(status: Termination): (code: int)
    ensures 0 <= code < 256
    ensures status.Exited? ==> code == status.code
    ensures status.Signaled? ==> SIGNAL_BASE < code && code - SIGNAL_BASE == status.sig
    ensures status.Other? ==> code == UNKNOWN_TERMINATION_EXIT
  {
    match status
    case Exited(c) => c
    case Signaled(s) => SIGNAL_BASE + s
    case Other => UNKNOWN_TERMINATION_EXIT
  }

  /**
   * What a parent's wait reports for a child that called exit(code):
   * the kernel keeps only the low eight bits of the code.
   */
  function Reap(code: int): (t: Termination)
    ensures t.Exited?
    ensures 0 <= code < 256 ==> t.code == code
    ensures (code - t.code) % 256 == 0
  {
    Exited(code % 256)
  }

  /**
   * Mapping a termination, exiting with the result and mapping the
   * parent's view of that exit once more changes nothing: applying
   * handle_child_exit at two levels is the same as applying it once.
   */
  lemma RemapIsIdentity(status: Termination)
    ensures HandleChildExit(Reap(HandleChildExit(status))) == HandleChildExit(status)
  {
  }

  /**
   * The mapping does not tell a signal death from a program that exits
   * with 128 plus that signal on its own (signal 9 and exit code 137, say).
   */
  lemma SignalAndExitCodeCollide(s: SignalNumber)
    ensures Signaled(s) != Exited(SIGNAL_BASE + s)
    ensures HandleChildExit(Signaled(s)) == HandleChildExit(Exited(SIGNAL_BASE + s))
  {
  }
}
