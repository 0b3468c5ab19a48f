# A verified model of a minimal container launcher

The launcher runs a command inside fresh UTS, PID and mount namespaces,
rooted at `<cwd>/ubuntu-rootfs`, optionally enrolled in a process-count
control group. `run <cmd...>` clones a namespaced process. That process
re-executes its own image as `/proc/self/exe child <cmd...>`. The `child`
entry point then does the following:

- sets the hostname;
- makes its mount table private;
- switches root;
- mounts `proc` and a tmpfs;
- joins the cgroup;
- forks the command, waits for it and unmounts;
- maps the command's termination to an exit code.

`run` maps the namespaced process's termination the same way.

The model abstracts every system call to its outcome. What it keeps is the
logic between the calls:

- the exit-status mapping and its two-level propagation;
- the re-exec argument vector;
- subcommand dispatch;
- the bounded rootfs path;
- idempotent directory creation;
- best-effort cgroup enrolment;
- the die/must exit policy.

Files:

- `exit_status.dfy` (`ExitStatus`): the termination of a child (`Exited`, `Signaled`, `Other`), `HandleChildExit`, and `Reap`, which is what a parent's wait reports for an `exit(code)`.
- `bounded_format.dfy` (`BoundedFormat`): snprintf into a fixed buffer, and the `%d` rendering of a pid.
- `root_fs.dfy` (`RootFs`): the filesystem seen from the new root (`<cwd>/ubuntu-rootfs` after `chroot`), as a class with directories, file contents, the directories that are pids control groups, and a journal of writes that took effect. `ensure_dir`, `write_to_file` and `cg_join_and_limit` are methods proved against specification functions on its state.
- `reexec.dfy` (`Reexec`): `child_main`'s argument vector, built in an array by a loop.
- `process.dfy` (`Process`): `die`/`must` as a failure-compatible `Flow`, and the trace of kernel steps.
- `launcher.dfy` (`Launcher`): `main`, `run`, `child_main` and `child` as functions of an `Os` record of system-call outcomes. `Main` and `Run` are mutually recursive because the re-executed image runs `main` again.
- `wrappers.dfy` (`Wrappers`): `Option`.

Some behaviours of the code as written are modelled as they are:

- "no command provided" is detected in the forked child, after every mount and the cgroup enrolment (`NoCommandDetectedAfterSetup`). It is not a check made before any process is created.
- `child` discards the results of its two `ensure_dir` calls. A directory that cannot be created is not fatal by itself; only the mount that follows can fail.
- When `waitpid` fails in `child`, `status` is still 0. That reads as a normal exit with code 0, so `child` reports success (`WaitFailureReportsSuccess`).
- A failed tmpfs mount, or a failed fork, exits without unmounting what was already mounted (`TmpfsFailureLeavesProcMounted`, `ForkFailureLeavesMounted`).
- `cg_join_and_limit` runs after `chroot` and `chdir("/")`, so `/sys/fs/cgroup/pids` is looked up under the new root, not on the host. Without a pids hierarchy there, or with a plain directory at that path and no `container` subgroup in it yet, enrolment writes nothing (`CgJoinSpec`, `CgSubgroupFailureNoChange`, `CgPlainControllerWritesNothing`).
- The mapping does not tell death by signal s from a normal exit with 128 + s, for example signal 9 from exit code 137 (`SignalAndExitCodeCollide`).

## Model

| member | source | states |
|---|---|---|
| `ExitStatus.HandleChildExit` | src/main.c:73-89 | a normal exit with code c gives c; death by signal s gives 128+s, and s is recoverable as code-128; anything else gives 1; the result is always a byte |
| `ExitStatus.Reap` | src/main.c:222-229 | a parent's wait reports an `exit(code)` as a normal exit whose code agrees with `code` modulo 256, and equals it for a byte |
| `ExitStatus.RemapIsIdentity` | src/main.c:73-89 | mapping a termination, exiting with the result and mapping the parent's view again gives the same code |
| `ExitStatus.SignalAndExitCodeCollide` | src/main.c:80-84 | for every signal s, death by s and a normal exit with 128 + s are different terminations that map to the same code |
| `BoundedFormat.FormatBounded` | src/main.c:165 | snprintf returns the untruncated length; the text is whole exactly when the length is below the size, and otherwise is exactly its first size - 1 characters |
| `BoundedFormat.Decimal` | src/main.c:116-117 | `%d` of a pid is a non-empty string of digits with no leading zero unless the pid is 0 |
| `BoundedFormat.DecimalRoundTrip` | src/main.c:116-117 | reading the printed digits back gives the pid |
| `BoundedFormat.DecimalLength` | src/main.c:116-117 | a number below 10^k prints in at most k digits |
| `BoundedFormat.PidFitsBuffer` | src/main.c:116-117 | every 32-bit pid is printed into the 32-byte buffer without truncation |
| `RootFs.Exists` | src/main.c:97 | `access(path, F_OK)` succeeds exactly when the path is a directory or a file |
| `RootFs.Openable` | src/main.c:65-66 | open for writing with truncation and without O_CREAT succeeds exactly on a permitted, existing regular file whose parent is a directory |
| `RootFs.MkdirCreates` | src/main.c:56 | mkdir succeeds exactly when nothing is at the path, its parent is a directory, and nothing else refuses it |
| `RootFs.Made` | src/main.c:56 | a created directory is added; inside a control group it becomes a control group with its control files |
| `RootFs.ControlFiles` | src/main.c:103-104 | a new control group of the pids hierarchy comes with pids.max, notify_on_release and cgroup.procs |
| `RootFs.EnsureDirSpec` | src/main.c:54-61 | returns 0 exactly when the path exists afterwards, and -1 exactly when it did not exist and mkdir was refused or its parent is not a directory; an existing path or -1 changes nothing; a created path is added as a directory, and inside a control group it becomes one with its control files |
| `RootFs.WriteToFileSpec` | src/main.c:63-71 | no file or directory is ever created; a path that cannot be opened (not permitted, not an existing regular file, or not inside a directory) changes nothing; otherwise the file holds exactly the content, all other files are unchanged, and the write joins the journal |
| `RootFs.WriteNeedsRegularFile` | src/main.c:65-67 | opening without O_CREAT fails on a missing path, a directory, or a path under a regular file, and nothing changes |
| `RootFs.CgroupWrites` | src/main.c:109-118 | the three writes, in source order: "20" to pids.max, "1" to notify_on_release, the pid text to cgroup.procs |
| `RootFs.PidText` | src/main.c:116-117 | the text `%d` leaves in the 32-byte buffer is a prefix of the decimal pid that fits it, and the whole decimal for any 32-bit pid |
| `RootFs.CgJoinSpec` | src/main.c:91-119 | probe the controller, ensure the subgroup, then three ordered best-effort writes: nothing changes without the controller, at most the subgroup directory and control group are added, only its control files can appear, and the journal grows by at most three writes |
| `RootFs.EnsureDirIdempotent` | src/main.c:54-61 | calling ensure_dir again after it returned 0 returns 0 and changes nothing |
| `RootFs.EnsureDirTwice` | src/main.c:54-61 | on an existing directory, or on a path mkdir is not refused on and whose parent is a directory, two successive calls both return 0 and the directory exists |
| `RootFs.CgSubgroupFailureNoChange` | src/main.c:103-105 | if the `container` subgroup cannot be created, because mkdir is refused or the controller path is not a directory, nothing changes |
| `RootFs.CgPlainControllerWritesNothing` | src/main.c:96-118 | when the controller path is a plain directory rather than a mounted pids hierarchy, the new subgroup has no control files, so no file appears and nothing is written |
| `RootFs.CgGroupIsFileNoChange` | src/main.c:103-118 | if the subgroup path is a regular file, ensure_dir reports success but no control file can be opened under it, so nothing changes |
| `RootFs.CgWritesInOrder` | src/main.c:107-118 | otherwise the journal grows by "20" to pids.max, "1" to notify_on_release and the pid to cgroup.procs, in that order, minus unopenable files; the subgroup exists |
| `RootFs.CgOtherFilesUnchanged` | src/main.c:91-119 | no file other than the subgroup's three control files appears or changes |
| `RootFs.CgFilesWritten` | src/main.c:107-118 | when the subgroup holds its control files, or is created with them, and all three are permitted, they end up holding the limit, the release flag and the pid text, and all three writes happen in order |
| `RootFs.CgProcsGetsWholePid` | src/main.c:115-118 | when the control files are there and cgroup.procs is permitted, it receives the full decimal pid |
| `RootFs.Fs.Accessible` | src/main.c:97 | `access(path, F_OK)` on the current state |
| `RootFs.Fs.Mkdir` | src/main.c:56-58 | mkdir creates exactly when `MkdirCreates` holds, with the new state `Made`, and reports EEXIST exactly for an existing path |
| `RootFs.Fs.EnsureDir` | src/main.c:54-61 | the method's result and new state are those of `EnsureDirSpec` |
| `RootFs.Fs.WriteToFile` | src/main.c:63-71 | the new state is that of `WriteToFileSpec` |
| `RootFs.Fs.CgJoinAndLimit` | src/main.c:91-119 | the new state is that of the cgroup specification, with the bounded path buffers shown not to truncate |
| `Reexec.ReexecVector` | src/main.c:125-136 | argc+1 slots: `/proc/self/exe`, `child`, argv[i] for 2 <= i < argc, NULL last |
| `Reexec.ArgsBeforeNull` | src/main.c:138 | the arguments a new image sees are never more than the vector's slots |
| `Reexec.ArgsOfTerminated` | src/main.c:136-138 | a NULL-terminated vector of present strings passes exactly those strings |
| `Reexec.ReexecArgs` | src/main.c:129-138 | the re-executed image gets the same argc, `child` as argv[1] and the original tail argv[2..] unchanged |
| `Reexec.BuildReexecArgv` | src/main.c:125-136 | the freshly allocated, filled array is exactly the re-exec vector |
| `Process.Die` | src/main.c:31-46 | die always ends the process with exit code 1 |
| `Process.Must` | src/main.c:48-52 | must ends the process with 1 exactly when rc < 0, and otherwise lets it go on unchanged |
| `Process.DieUnless` | src/main.c:179-181 | a failed fork ends the process with exit 1 |
| `Process.OrDie` | src/main.c:160-166 | a failed lookup ends the process with exit 1; a successful one passes its value on |
| `Launcher.Dispatch` | src/main.c:237-257 | fewer than two arguments means usage; argv[1] "run" selects run, "child" selects child, any other word is unknown |
| `Launcher.Main` | src/main.c:232-258 | usage errors and unknown commands exit 1 with no step taken; every exit code is a byte |
| `Launcher.GetCwd` | src/main.c:160-162 | getcwd succeeds exactly when the directory is known and fits in PATH_MAX |
| `Launcher.RootfsPath` | src/main.c:164-166 | the path is exactly cwd + "/" + "ubuntu-rootfs", and fails exactly when \|cwd\| + 1 + 13 >= PATH_MAX |
| `Launcher.ChildSetup` | src/main.c:155-177 | a failing setup step exits 1 before any fork; a complete setup ends with the cgroup enrolment |
| `Launcher.CommandTail` | src/main.c:187 | the executed vector is argv[2..argc) |
| `Launcher.CommandSteps` | src/main.c:185-188 | the forked child takes no step without a command, otherwise one execvp of exactly argv[2..]; it never forks or waits |
| `Launcher.CommandTermination` | src/main.c:183-191 | the forked child exits 1 without a command and 127 when execvp fails; otherwise it ends as the user program does |
| `Launcher.RunCommand` | src/main.c:179-202 | it dies (exit 1) exactly when the fork or an unmount fails; a failed wait yields exit 0 |
| `Launcher.Child` | src/main.c:146-203 | the exit code of child is always a byte |
| `Launcher.ReexecArgsOf` | src/main.c:121-138 | the re-exec arguments keep argc, carry `child` and forward argv[2..] |
| `Launcher.ReexecChild` | src/main.c:121-144 | allocation or execv failure ends the cloned process with 1; a signal death is reported as a signal |
| `Launcher.Run` | src/main.c:205-230 | clone or wait failure exits 1; the trace starts with the clone and ends with the wait; every code is a byte |
| `Launcher.SetupOrder` | src/main.c:155-177 | setup succeeds exactly when every call does, in this order: hostname, unshare, private mounts, chroot to cwd/ubuntu-rootfs, chdir /, both mount points, both mounts, cgroup |
| `Launcher.SetupFailureExitsOne` | src/main.c:155-175 | any failing setup step ends child with 1 and nothing is forked |
| `Launcher.RootfsTooLongExitsOne` | src/main.c:164-166 | a cwd too long for the rootfs buffer ends child with 1 before chroot |
| `Launcher.TmpfsFailureLeavesProcMounted` | src/main.c:174-175 | when the tmpfs mount fails, child exits 1 and proc is never unmounted |
| `Launcher.ForkFailureLeavesMounted` | src/main.c:179-181 | a failed fork ends child with 1 after the full setup, with both filesystems mounted and no unmount attempted |
| `Launcher.UnmountAfterWait` | src/main.c:179-200 | after fork the trace is the command's exec, the wait, then unmount proc and unmount mytemp unless the first unmount failed |
| `Launcher.ChildMapsCommandTermination` | src/main.c:183-202 | when every call succeeds, child exits with handle_child_exit of the command's termination and executed argv[2..] |
| `Launcher.NoCommandDetectedAfterSetup` | src/main.c:185-186 | with no command, child mounts, joins the cgroup and forks before exiting 1 |
| `Launcher.WaitFailureReportsSuccess` | src/main.c:193-197 | a failed waitpid in child yields exit code 0 |
| `Launcher.UnmountFailureExitsOne` | src/main.c:199-200 | a failing unmount ends child with 1 whatever the command did |
| `Launcher.RunForwardsInnerExit` | src/main.c:214-229 | when clone, re-exec and wait succeed, run exits with exactly the code of the re-executed `child` process |
| `Launcher.TwoLevelPropagation` | src/main.c:202 | when every call succeeds, run's exit code is handle_child_exit applied once to the command's termination |
| `Launcher.OuterExitCodes` | src/main.c:185-190 | the caller of run sees 1 without a command, 127 when exec fails, the program's own code, or 128 + signal |
| `Launcher.RunExecutesCommandTail` | src/main.c:125-136 | the command tail given to run is what the innermost process executes |

## Left out

- Namespace creation (`clone` flags, `unshare`), `sethostname`, `chroot`/`chdir` and `mount`/`umount2` have no modelled kernel effect. Only their order is kept, as trace steps, and their success is an `Os` field.
- `fork`, `execv`, `execvp` and `waitpid` are replaced by abstract outcomes in `Os`. This includes the user program's own termination and the 1 MiB clone stack.
- The Linux wait-status bit layout behind `WIFEXITED`/`WEXITSTATUS`/`WIFSIGNALED`/`WTERMSIG` is not modelled. The model uses the three-case `Termination` instead.
- Printed text is left out: the `printf`/`fprintf`/`perror` messages, `strerror`, and the "Running ..." argument-printing loop in `child`.
- `malloc`/`free` are not modelled beyond the allocation-failure path: `reexecAllocOk` false means `die("malloc")`.
- Concurrent invocations racing on the fixed cgroup name and rootfs directory are not modelled, because the model is sequential.
- RootFs.Fs.Mkdir: the permission modes 0755 and 0555 are not recorded. Which directories form a mounted pids hierarchy is part of the initial state (`groups`), not derived from mount operations. A new control group gets only the three control files the launcher writes.
- RootFs.Fs.WriteToFile: the result of `write` is ignored by the code, and the model assumes the whole content is written; `close` is not modelled.
- Launcher.Child: the two `ensure_dir` calls and `cg_join_and_limit` appear only as trace steps, because their results do not affect the exit code. Their effect on the filesystem is modelled by `RootFs.Fs`, with the pid as a parameter standing for `getpid()`.
- Launcher.RootfsPath: paths, the working directory and arguments stand for byte strings, one `char` per byte with no NUL; `getcwd` and `snprintf` count bytes, and so does the model only under that reading.
- Launcher.GetCwd: like `RootfsPath`, its PATH_MAX bound counts one byte per `char`.
- Launcher.ReexecChild: when the namespaced process is killed by a signal, the steps it performed are not recorded, because how far it got is unknown.
