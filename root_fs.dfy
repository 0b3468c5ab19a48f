/**
 * The filesystem seen from the new root, as child touches it after
 * chroot("<cwd>/ubuntu-rootfs"): idempotent directory creation
 * (ensure_dir), truncating writes (write_to_file) and the best-effort
 * enrolment in a process-count control group (cg_join_and_limit), whose
 * paths are therefore looked up under the new root.
 *
 * The filesystem is abstract: a set of directories, a map from file path
 * to contents, the directories that are control groups of a mounted pids
 * hierarchy, and a journal of the writes that took effect, in order.
 * mkdir succeeds only inside a directory; `mkdirRefused` holds the paths
 * where it fails for any other reason (permissions, a read-only mount).
 * open(O_WRONLY | O_TRUNC) without O_CREAT succeeds only on an existing
 * regular file inside a directory; `writable` holds the paths whose
 * permissions allow it. A directory made inside a control group is a
 * control group too: the kernel gives it its control files.
 */
module RootFs {
  import opened BoundedFormat

  type Path = string

  /** One write that reached a file: the file was truncated to `content`. */
  datatype Write = Write(path: Path, content: string)

  datatype FsState = FsState(dirs: set<Path>, files: map<Path, string>, groups: set<Path>, journal: seq<Write>)

  /** access(path, F_OK) == 0 */
  predicate Exists(s: FsState, p: Path) {
    p in s.dirs || p in s.files
  }

  predicate IsDir(s: FsState, p: Path) {
    p in s.dirs && p !in s.files
  }

  predicate IsFile(s: FsState, p: Path) {
    p in s.files && p !in s.dirs
  }

  /** The directory part of a path: everything before its last '/'. */
  function Dirname(p: Path): (d: Path)
    ensures |d| <= |p|
  {
    if p == [] then []
    else if p[|p| - 1] == '/' then p[..|p| - 1]
    else Dirname(p[..|p| - 1])
  }

  /** The entry `name` of directory `d` lies in `d`. */
  lemma {:induction false} DirnameOfChild(d: Path, name: string)
    requires '/' !in name
    ensures Dirname(d + "/" + name) == d
  {
    var p := d + "/" + name;
    if name != [] {
      var init := name[..|name| - 1];
      assert p[|p| - 1] == name[|name| - 1];
      assert p[..|p| - 1] == d + "/" + init;
      DirnameOfChild(d, init);
    } else {
      assert p[..|p| - 1] == d;
    }
  }

  /**
   * The path's parent is a directory: a path with no '/' lies in the
   * working directory, one whose only '/' leads lies in the root.
   */
  predicate InDirectory(s: FsState, p: Path) {
    Dirname(p) == [] || IsDir(s, Dirname(p))
  }

  /**
   * open(p, O_WRONLY | O_TRUNC) succeeds: permitted, an existing regular
   * file (no O_CREAT), inside a directory (not ENOTDIR).
   */
  predicate Openable(s: FsState, p: Path, writable: set<Path>) {
    p in writable && IsFile(s, p) && InDirectory(s, p)
  }

  const CGROUP_ROOT: Path := "/sys/fs/cgroup"
  const PIDS_CONTROLLER: Path := CGROUP_ROOT + "/pids"
  const CONTAINER_GROUP: Path := PIDS_CONTROLLER + "/container"
  const PIDS_MAX_FILE: Path := CONTAINER_GROUP + "/pids.max"
  const NOTIFY_FILE: Path := CONTAINER_GROUP + "/notify_on_release"
  const PROCS_FILE: Path := CONTAINER_GROUP + "/cgroup.procs"

  /** The live-process limit written to pids.max. */
  const PIDS_LIMIT := "20"
  /** The value written to notify_on_release. */
  const NOTIFY_ON := "1"

  /**
   * The control files the kernel creates with a new control group `p` of
   * the pids hierarchy. Their contents stand in for the kernel's initial
   * values, which are not modelled (notify_on_release, for one, is
   * inherited from the parent group).
   */
  function ControlFiles(p: Path): map<Path, string> {
    map[p + "/pids.max" := "max", p + "/notify_on_release" := "0", p + "/cgroup.procs" := ""]
  }

  /** Where the container group and its control files lie. */
  lemma CgroupLayout()
    ensures Dirname(CONTAINER_GROUP) == PIDS_CONTROLLER
    ensures Dirname(PIDS_MAX_FILE) == CONTAINER_GROUP
    ensures Dirname(NOTIFY_FILE) == CONTAINER_GROUP
    ensures Dirname(PROCS_FILE) == CONTAINER_GROUP
    ensures ControlFiles(CONTAINER_GROUP).Keys == {PIDS_MAX_FILE, NOTIFY_FILE, PROCS_FILE}
  {
    assert Dirname(CONTAINER_GROUP) == PIDS_CONTROLLER by {
      assert CONTAINER_GROUP == PIDS_CONTROLLER + "/" + "container";
      DirnameOfChild(PIDS_CONTROLLER, "container");
    }
    assert Dirname(PIDS_MAX_FILE) == CONTAINER_GROUP by {
      assert PIDS_MAX_FILE == CONTAINER_GROUP + "/" + "pids.max";
      DirnameOfChild(CONTAINER_GROUP, "pids.max");
    }
    assert Dirname(NOTIFY_FILE) == CONTAINER_GROUP by {
      assert NOTIFY_FILE == CONTAINER_GROUP + "/" + "notify_on_release";
      DirnameOfChild(CONTAINER_GROUP, "notify_on_release");
    }
    assert Dirname(PROCS_FILE) == CONTAINER_GROUP by {
      assert PROCS_FILE == CONTAINER_GROUP + "/" + "cgroup.procs";
      DirnameOfChild(CONTAINER_GROUP, "cgroup.procs");
    }
  }

  /** The outcome of mkdir(2), as ensure_dir distinguishes it. */
  datatype MkdirResult = Created | AlreadyExists | Failed

  datatype DirResult = DirResult(state: FsState, rc: int)

  /** mkdir(p) creates a directory: nothing is there, the parent is a directory, nothing else refuses. */
  predicate MkdirCreates(s: FsState, p: Path, mkdirRefused: set<Path>) {
    !Exists(s, p) && p !in mkdirRefused && InDirectory(s, p)
  }

  /** The state after mkdir(p) created a directory; inside a control group it is one too. */
  function Made(s: FsState, p: Path): FsState {
    if Dirname(p) in s.groups
    then s.(dirs := s.dirs + {p}, files := s.files + ControlFiles(p), groups := s.groups + {p})
    else s.(dirs := s.dirs + {p})
  }

  /**
   * ensure_dir on a state: 0 when the path was created or already
   * existed (EEXIST), -1 with nothing changed on any other failure.
   */
  function EnsureDirSpec(s: FsState, p: Path, mkdirRefused: set<Path>): (r: DirResult)
    ensures r.rc == 0 || r.rc == -1
    ensures r.rc == 0 <==> Exists(r.state, p)
    ensures r.rc == -1 <==> !Exists(s, p) && (p in mkdirRefused || !InDirectory(s, p))
    ensures r.rc == -1 ==> r.state == s
    ensures r.state.journal == s.journal
    ensures Exists(s, p) ==> r.state == s
    ensures !Exists(s, p) && r.rc == 0 ==>
              && r.state.dirs == s.dirs + {p}
              && r.state.files == s.files + (if Dirname(p) in s.groups then ControlFiles(p) else map[])
              && r.state.groups == s.groups + (if Dirname(p) in s.groups then {p} else {})
  {
    if Exists(s, p) then DirResult(s, 0)
    else if !MkdirCreates(s, p, mkdirRefused) then DirResult(s, -1)
    else DirResult(Made(s, p), 0)
  }

  /**
   * write_to_file on a state: a path that cannot be opened is skipped;
   * otherwise the file is truncated to `content` and the write joins the
   * journal. No file is ever created.
   */
  function WriteToFileSpec(s: FsState, p: Path, content: string, writable: set<Path>): (r: FsState)
    ensures r.dirs == s.dirs && r.files.Keys == s.files.Keys && r.groups == s.groups
    ensures !Openable(s, p, writable) ==> r == s
    ensures Openable(s, p, writable) ==> r.files[p] == content
    ensures forall q :: q != p && q in s.files ==> r.files[q] == s.files[q]
    ensures r.journal == s.journal + Performed([Write(p, content)], s, writable)
  {
    if Openable(s, p, writable)
    then s.(files := s.files[p := content], journal := s.journal + [Write(p, content)])
    else s
  }

  /**
   * write_to_file never creates a file and never writes into a directory
   * or under a path that is not one: open fails and nothing changes.
   */
  lemma WriteNeedsRegularFile(s: FsState, p: Path, content: string, writable: set<Path>)
    requires !IsFile(s, p) || !InDirectory(s, p)
    ensures WriteToFileSpec(s, p, content, writable) == s
  {
  }

  /** The writes of `ws`, in order, whose file can be opened in `s`. */
  function Performed(ws: seq<Write>, s: FsState, writable: set<Path>): (r: seq<Write>)
    ensures |r| <= |ws|
    ensures forall i :: 0 <= i < |r| ==> r[i] in ws && Openable(s, r[i].path, writable)
  {
    if ws == [] then []
    else (if Openable(s, ws[0].path, writable) then [ws[0]] else []) + Performed(ws[1..], s, writable)
  }

  /** The three writes cg_join_and_limit attempts, in the order it makes them. */
  function CgroupWrites(pidText: string): seq<Write> {
    [Write(PIDS_MAX_FILE, PIDS_LIMIT), Write(NOTIFY_FILE, NOTIFY_ON), Write(PROCS_FILE, pidText)]
  }

  /** The text "%d" leaves in the 32-byte pid buffer. */
  function PidText(pid: nat): (t: string)
    ensures |t| < PID_BUFFER_SIZE && t <= Decimal(pid)
    ensures pid < 0x8000_0000 ==> t == Decimal(pid)
  {
    var t := FormatBounded(PID_BUFFER_SIZE, Decimal(pid)).text;
    if pid < 0x8000_0000 then PidFitsBuffer(pid); t else t
  }

  /**
   * cg_join_and_limit on a state: nothing happens unless the pids
   * controller exists and the subgroup can be ensured; then the three
   * writes are attempted in order, each skipped if its file cannot be
   * opened.
   */
  function CgJoinSpec(s: FsState, pid: nat, writable: set<Path>, mkdirRefused: set<Path>): (r: FsState)
    ensures !Exists(s, PIDS_CONTROLLER) ==> r == s
    ensures s.dirs <= r.dirs <= s.dirs + {CONTAINER_GROUP}
    ensures s.groups <= r.groups <= s.groups + {CONTAINER_GROUP}
    ensures forall q :: q in r.files && q !in s.files ==> q in {PIDS_MAX_FILE, NOTIFY_FILE, PROCS_FILE}
    ensures |s.journal| <= |r.journal| <= |s.journal| + 3 && r.journal[..|s.journal|] == s.journal
  {
    if !Exists(s, PIDS_CONTROLLER) then s
    else
      var d := EnsureDirSpec(s, CONTAINER_GROUP, mkdirRefused);
      if d.rc < 0 then s
      else
        CgroupLayout();
        assert d.state.files.Keys <= s.files.Keys + {PIDS_MAX_FILE, NOTIFY_FILE, PROCS_FILE};
        var s1 := WriteToFileSpec(d.state, PIDS_MAX_FILE, PIDS_LIMIT, writable);
        var s2 := WriteToFileSpec(s1, NOTIFY_FILE, NOTIFY_ON, writable);
        WriteToFileSpec(s2, PROCS_FILE, PidText(pid), writable)
  }

  /** Calling ensure_dir again on a path it just ensured succeeds and changes nothing. */
  lemma EnsureDirIdempotent(s: FsState, p: Path, mkdirRefused: set<Path>)
    requires EnsureDirSpec(s, p, mkdirRefused).rc == 0
    ensures var first := EnsureDirSpec(s, p, mkdirRefused).state;
            EnsureDirSpec(first, p, mkdirRefused) == DirResult(first, 0)
  {
  }

  /**
   * Two successive ensure_dir calls on an existing directory, or on a path
   * mkdir is not refused on, both return 0 and leave the directory in place.
   */
  lemma EnsureDirTwice(s: FsState, p: Path, mkdirRefused: set<Path>)
    requires p in s.dirs || (p !in s.files && p !in mkdirRefused && InDirectory(s, p))
    ensures var r1 := EnsureDirSpec(s, p, mkdirRefused);
            var r2 := EnsureDirSpec(r1.state, p, mkdirRefused);
            r1.rc == 0 && r2.rc == 0 && p in r2.state.dirs
  {
  }

  /**
   * If the subgroup cannot be created, because mkdir is refused or because
   * the controller path is not a directory (ENOTDIR), no file is written
   * and nothing changes.
   */
  lemma CgSubgroupFailureNoChange(s: FsState, pid: nat, writable: set<Path>, mkdirRefused: set<Path>)
    requires !Exists(s, CONTAINER_GROUP)
    requires CONTAINER_GROUP in mkdirRefused || !IsDir(s, PIDS_CONTROLLER)
    ensures CgJoinSpec(s, pid, writable, mkdirRefused) == s
  {
    CgroupLayout();
  }

  /**
   * If the controller path is a plain directory rather than a mounted pids
   * hierarchy, a new subgroup is a plain directory with no control files:
   * nothing is written and no file appears.
   */
  lemma CgPlainControllerWritesNothing(s: FsState, pid: nat, writable: set<Path>, mkdirRefused: set<Path>)
    requires PIDS_CONTROLLER !in s.groups && !Exists(s, CONTAINER_GROUP)
    requires PIDS_MAX_FILE !in s.files && NOTIFY_FILE !in s.files && PROCS_FILE !in s.files
    ensures var r := CgJoinSpec(s, pid, writable, mkdirRefused);
            r.files == s.files && r.groups == s.groups && r.journal == s.journal
  {
    CgroupLayout();
  }

  /**
   * If the subgroup path is a regular file, ensure_dir reports success
   * (EEXIST), but no control file under it can be opened (ENOTDIR): nothing
   * is written and nothing changes.
   */
  lemma CgGroupIsFileNoChange(s: FsState, pid: nat, writable: set<Path>, mkdirRefused: set<Path>)
    requires IsFile(s, CONTAINER_GROUP)
    ensures CgJoinSpec(s, pid, writable, mkdirRefused) == s
  {
    CgroupLayout();
  }

  /**
   * With the controller present and the subgroup ensured, the writes that
   * take effect are "20" to pids.max, "1" to notify_on_release and the pid
   * to cgroup.procs, in that order, minus those whose file cannot be
   * opened; the subgroup directory exists afterwards.
   */
  lemma CgWritesInOrder(s: FsState, pid: nat, writable: set<Path>, mkdirRefused: set<Path>)
    requires Exists(s, PIDS_CONTROLLER)
    requires Exists(s, CONTAINER_GROUP) || (CONTAINER_GROUP !in mkdirRefused && IsDir(s, PIDS_CONTROLLER))
    ensures var r := CgJoinSpec(s, pid, writable, mkdirRefused);
            && r.journal == s.journal + Performed(CgroupWrites(PidText(pid)), r, writable)
            && (CONTAINER_GROUP !in s.files ==> CONTAINER_GROUP in r.dirs)
  {
    var ws := CgroupWrites(PidText(pid));
    var d := EnsureDirSpec(s, CONTAINER_GROUP, mkdirRefused).state;
    CgroupLayout();
    WritesInOrder(d, ws, writable);
  }

  /** Three successive writes: those whose file can be opened reach the journal, in order. */
  lemma WritesInOrder(d: FsState, ws: seq<Write>, writable: set<Path>)
    requires |ws| == 3
    ensures var s1 := WriteToFileSpec(d, ws[0].path, ws[0].content, writable);
            var s2 := WriteToFileSpec(s1, ws[1].path, ws[1].content, writable);
            var r := WriteToFileSpec(s2, ws[2].path, ws[2].content, writable);
            r.journal == d.journal + Performed(ws, r, writable)
  {
    var s1 := WriteToFileSpec(d, ws[0].path, ws[0].content, writable);
    var s2 := WriteToFileSpec(s1, ws[1].path, ws[1].content, writable);
    var r := WriteToFileSpec(s2, ws[2].path, ws[2].content, writable);
    JournalOfThree(d, s1, s2, r, ws, writable);
    PerformedOfThree(ws, r, writable);
  }

  /** Each of three successive writes extends the journal by its own filtered write. */
  lemma JournalOfThree(d: FsState, s1: FsState, s2: FsState, r: FsState, ws: seq<Write>, writable: set<Path>)
    requires |ws| == 3
    requires s1 == WriteToFileSpec(d, ws[0].path, ws[0].content, writable)
    requires s2 == WriteToFileSpec(s1, ws[1].path, ws[1].content, writable)
    requires r == WriteToFileSpec(s2, ws[2].path, ws[2].content, writable)
    ensures r.journal == d.journal + (Performed([ws[0]], r, writable)
                                      + (Performed([ws[1]], r, writable) + Performed([ws[2]], r, writable)))
  {
    WriteJournal(d, ws[0], r, writable);
    WriteJournal(s1, ws[1], r, writable);
    WriteJournal(s2, ws[2], r, writable);
  }

  /** Filtering three writes filters each of them in turn. */
  lemma PerformedOfThree(ws: seq<Write>, s: FsState, writable: set<Path>)
    requires |ws| == 3
    ensures Performed(ws, s, writable)
            == Performed([ws[0]], s, writable) + (Performed([ws[1]], s, writable) + Performed([ws[2]], s, writable))
  {
    assert ws == [ws[0]] + ([ws[1]] + [ws[2]]);
    PerformedCons(ws[1], [ws[2]], s, writable);
    PerformedCons(ws[0], [ws[1]] + [ws[2]], s, writable);
  }

  /** Filtering a write in front of others filters it alone. */
  lemma PerformedCons(w: Write, ws: seq<Write>, s: FsState, writable: set<Path>)
    ensures Performed([w] + ws, s, writable) == Performed([w], s, writable) + Performed(ws, s, writable)
  {
    var kept := if Openable(s, w.path, writable) then [w] else [];
    assert Performed([w], s, writable) == kept by {
      assert [w][1..] == [];
    }
    assert Performed([w] + ws, s, writable) == kept + Performed(ws, s, writable) by {
      assert ([w] + ws)[0] == w && ([w] + ws)[1..] == ws;
    }
  }

  /** One write reaches the journal exactly when its file can be opened in any state of the same shape. */
  lemma WriteJournal(s: FsState, w: Write, t: FsState, writable: set<Path>)
    requires s.dirs == t.dirs && s.files.Keys == t.files.Keys
    ensures WriteToFileSpec(s, w.path, w.content, writable).journal == s.journal + Performed([w], t, writable)
  {
    PerformedOne(w, s, t, writable);
  }

  /** Whether a single write takes effect depends only on which paths can be opened. */
  lemma PerformedOne(w: Write, s: FsState, t: FsState, writable: set<Path>)
    requires s.dirs == t.dirs && s.files.Keys == t.files.Keys
    ensures Performed([w], s, writable) == Performed([w], t, writable)
            == (if Openable(t, w.path, writable) then [w] else [])
  {
    assert [w][1..] == [];
  }

  /** cg_join_and_limit changes no file other than the subgroup's three control files. */
  lemma CgOtherFilesUnchanged(s: FsState, pid: nat, writable: set<Path>, mkdirRefused: set<Path>, q: Path)
    requires q !in {PIDS_MAX_FILE, NOTIFY_FILE, PROCS_FILE}
    ensures var r := CgJoinSpec(s, pid, writable, mkdirRefused);
            && (q in r.files <==> q in s.files)
            && (q in s.files ==> r.files[q] == s.files[q])
  {
  }

  /**
   * The control files are there to be opened: the subgroup is a directory
   * holding all three, or it does not exist yet and mkdir will create it
   * inside the mounted pids hierarchy, and with it the files.
   */
  predicate ControlFilesReady(s: FsState, mkdirRefused: set<Path>) {
    || (IsDir(s, CONTAINER_GROUP) && IsFile(s, PIDS_MAX_FILE) && IsFile(s, NOTIFY_FILE) && IsFile(s, PROCS_FILE))
    || (!Exists(s, CONTAINER_GROUP) && CONTAINER_GROUP !in mkdirRefused
        && IsDir(s, PIDS_CONTROLLER) && PIDS_CONTROLLER in s.groups
        && PIDS_MAX_FILE !in s.dirs && NOTIFY_FILE !in s.dirs && PROCS_FILE !in s.dirs)
  }

  /**
   * When the control files are there and permitted, they end up holding
   * exactly the limit, the release flag and the pid, and all three writes
   * reach the journal.
   */
  lemma CgFilesWritten(s: FsState, pid: nat, writable: set<Path>, mkdirRefused: set<Path>)
    requires Exists(s, PIDS_CONTROLLER) && ControlFilesReady(s, mkdirRefused)
    requires {PIDS_MAX_FILE, NOTIFY_FILE, PROCS_FILE} <= writable
    ensures var r := CgJoinSpec(s, pid, writable, mkdirRefused);
            && PIDS_MAX_FILE in r.files && r.files[PIDS_MAX_FILE] == PIDS_LIMIT
            && NOTIFY_FILE in r.files && r.files[NOTIFY_FILE] == NOTIFY_ON
            && PROCS_FILE in r.files && r.files[PROCS_FILE] == PidText(pid)
            && r.journal == s.journal + CgroupWrites(PidText(pid))
  {
    CgroupLayout();
  }

  /** The pid a 32-bit kernel hands out is written to cgroup.procs in full. */
  lemma CgProcsGetsWholePid(s: FsState, pid: nat, writable: set<Path>, mkdirRefused: set<Path>)
    requires pid < 0x8000_0000
    requires Exists(s, PIDS_CONTROLLER) && ControlFilesReady(s, mkdirRefused)
    requires PROCS_FILE in writable
    ensures var r := CgJoinSpec(s, pid, writable, mkdirRefused);
            PROCS_FILE in r.files && r.files[PROCS_FILE] == Decimal(pid)
  {
    CgroupLayout();
    PidFitsBuffer(pid);
  }

  /**
   * The filesystem under the new root, updated in place. Every method is
   * proved against the corresponding specification function on State().
   */
  class Fs {
    var dirs: set<Path>
    var files: map<Path, string>
    var groups: set<Path>
    var journal: seq<Write>
    const writable: set<Path>
    const mkdirRefused: set<Path>

    function State(): FsState
      reads this
    {
      FsState(dirs, files, groups, journal)
    }

    constructor (dirs0: set<Path>, files0: map<Path, string>, groups0: set<Path>, writable: set<Path>, mkdirRefused: set<Path>)
      ensures State() == FsState(dirs0, files0, groups0, [])
      ensures this.writable == writable && this.mkdirRefused == mkdirRefused
    {
      dirs, files, groups, journal := dirs0, files0, groups0, [];
      this.writable, this.mkdirRefused := writable, mkdirRefused;
    }

    /** access(p, F_OK) == 0 */
    predicate Accessible(p: Path)
      reads this
    {
      Exists(State(), p)
    }

    /**
     * mkdir(2): fails with EEXIST on an existing path, fails outside a
     * directory or when refused; a directory made inside a control group is
     * one too and comes with its control files.
     */
    method Mkdir(p: Path) returns (result: MkdirResult)
      modifies this`dirs, this`files, this`groups
      ensures result == Created <==> MkdirCreates(old(State()), p, mkdirRefused)
      ensures result == AlreadyExists <==> old(Accessible(p))
      ensures State() == if result == Created then Made(old(State()), p) else old(State())
    {
      var parent := Dirname(p);
      if p in dirs || p in files {
        result := AlreadyExists;
      } else if p in mkdirRefused || (parent != [] && (parent !in dirs || parent in files)) {
        result := Failed;
      } else {
        if parent in groups {
          files := files + ControlFiles(p);
          groups := groups + {p};
        }
        dirs := dirs + {p};
        result := Created;
      }
    }

    method EnsureDir(p: Path) returns (rc: int)
      modifies this`dirs, this`files, this`groups
      ensures DirResult(State(), rc) == EnsureDirSpec(old(State()), p, mkdirRefused)
    {
      var made := Mkdir(p);
      if made == Created {
        return 0;
      }
      if made == AlreadyExists {
        return 0;
      }
      return -1;
    }

    method WriteToFile(p: Path, content: string)
      modifies this`files, this`journal
      ensures State() == WriteToFileSpec(old(State()), p, content, writable)
    {
      if Openable(State(), p, writable) {
        files := files[p := content];
        journal := journal + [Write(p, content)];
      }
    }

    method CgJoinAndLimit(pid: nat)
      modifies this
      ensures State() == CgJoinSpec(old(State()), pid, writable, mkdirRefused)
    {
      var controller := FormatBounded(PATH_BUFFER_SIZE, CGROUP_ROOT + "/pids").text;
      assert controller == PIDS_CONTROLLER;
      if !Accessible(controller) {
        return;
      }
      var group := FormatBounded(PATH_BUFFER_SIZE, CGROUP_ROOT + "/pids/container").text;
      assert group == CONTAINER_GROUP;
      var rc := EnsureDir(group);
      if rc < 0 {
        return;
      }
      var f := FormatBounded(PATH_BUFFER_SIZE, group + "/pids.max").text;
      assert f == PIDS_MAX_FILE;
      WriteToFile(f, PIDS_LIMIT);
      f := FormatBounded(PATH_BUFFER_SIZE, group + "/notify_on_release").text;
      assert f == NOTIFY_FILE;
      WriteToFile(f, NOTIFY_ON);
      f := FormatBounded(PATH_BUFFER_SIZE, group + "/cgroup.procs").text;
      assert f == PROCS_FILE;
      var buf := FormatBounded(PID_BUFFER_SIZE, Decimal(pid)).text;
      WriteToFile(f, buf);
    }
  }
}
