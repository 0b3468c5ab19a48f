/**
 * The re-exec bootstrap (child_main): the process just created in the new
 * namespaces re-executes its own image as "/proc/self/exe child ...",
 * forwarding the original command tail.
 */
module Reexec {
  import opened Wrappers

  /** The path through which a process re-executes its own image. */
  const SELF_EXE := "/proc/self/exe"

  /** The subcommand that selects the isolation entry point. */
  const CHILD_COMMAND := "child"

  /**
   * The argument vector child_main hands to execv, NULL terminator
   * included: argc + 1 slots, the self path and "child" in front, the
   * original argv[2..argc) behind them, NULL last.
   */
  function ReexecVector(argv: seq<string>): (v: seq<Option<string>>)
    requires |argv| >= 2
    ensures |v| == |argv| + 1
    ensures v[0] == Some(SELF_EXE) && v[1] == Some(CHILD_COMMAND)
    ensures forall i :: 2 <= i < |argv| ==> v[i] == Some(argv[i])
    ensures v[|argv|] == None
  {
    [Some(SELF_EXE), Some(CHILD_COMMAND)]
      + seq(|argv| - 2, i requires 0 <= i < |argv| - 2 => Some(argv[i + 2]))
      + [None]
  }

  /** The argv a new program image sees: the entries before the first NULL. */
  function ArgsBeforeNull(v: seq<Option<string>>): (args: seq<string>)
    ensures |args| <= |v|
  {
    if v == [] || v[0] == None then [] else [v[0].value] + ArgsBeforeNull(v[1..])
  }

  /** A NULL-terminated vector of present strings yields exactly those strings. */
  lemma {:induction false} ArgsOfTerminated(v: seq<Option<string>>, args: seq<string>)
    requires |v| == |args| + 1 && v[|args|] == None
    requires forall i :: 0 <= i < |args| ==> v[i] == Some(args[i])
    ensures ArgsBeforeNull(v) == args
  {
    if args != [] {
      ArgsOfTerminated(v[1..], args[1..]);
    }
  }

  /**
   * The re-executed image receives the original argument count, "child"
   * as its subcommand and the original command tail unchanged.
   */
  lemma ReexecArgs(argv: seq<string>)
    requires |argv| >= 2
    ensures var args := ArgsBeforeNull(ReexecVector(argv));
            && |args| == |argv|
            && args[0] == SELF_EXE && args[1] == CHILD_COMMAND
            && args[2..] == argv[2..]
  {
    var args := [SELF_EXE, CHILD_COMMAND] + argv[2..];
    ArgsOfTerminated(ReexecVector(argv), args);
  }

  /**
   * child_main's loop: allocate argc + 1 slots, fill in the self path and
   * "child", copy argv[2..argc) across and terminate with NULL.
   */
  method BuildReexecArgv(argv: array<string>) returns (newArgv: array<Option<string>>)
    requires argv.Length >= 2
    ensures fresh(newArgv)
    ensures newArgv[..] == ReexecVector(argv[..])
  {
    newArgv := new Option<string>[argv.Length + 1];
    newArgv[0] := Some(SELF_EXE);
    newArgv[1] := Some(CHILD_COMMAND);
    var i := 2;
    while i < argv.Length
      invariant 2 <= i <= argv.Length
      invariant newArgv[0] == Some(SELF_EXE) && newArgv[1] == Some(CHILD_COMMAND)
      invariant forall k :: 2 <= k < i ==> newArgv[k] == Some(argv[k])
    {
      newArgv[i] := Some(argv[i]);
      i := i + 1;
    }
    newArgv[argv.Length] := None;
  }
}
