/** The child side of src/main.rs: `RunChroot` and its `run_chroot` step
    sequence. The new root and the kernel's answers are abstract (module
    Mirror); the class `Sandbox` holds the state the steps change in place. */
module Chroot {
  import opened Text
  import opened Mirror
  import opened IdMap

  const SetgroupsPath := "/proc/self/setgroups"
  const UidMapPath := "/proc/self/uid_map"
  const GidMapPath := "/proc/self/gid_map"

  /** The one variable the child sets for the command it runs. */
  const ConfDirVar := "NIX_CONF_DIR"
  const ConfDir := "/nix/etc/nix"

  /** How the child ends: a panic, the command image replacing the child, or
      `process::exit(1)` after `exec` failed. `extraEnv` lists only the
      variables the child adds; the rest of its environment is inherited. */
  datatype ChildEnd =
    | Panicked(fault: Fault)
    | Execed(cmd: string, args: seq<string>, extraEnv: seq<(string, string)>)
    | ExitAfterExecFailure(code: int)

  datatype Run = Run(end: ChildEnd, fs: Fs)

  function Note(fs: Fs, e: Event): Fs { fs.(log := fs.log + [e]) }

  /** From reading the ids to the store mount: ids read, `unshare`, listing
      of `/`, mirroring, store. Every failure here is fatal. */
  function Prepare(fs: Fs, nixdir: string, uid: Id, gid: Id, listing: Option<seq<Listed>>, k: Kernel): Outcome
  {
    var read := Note(fs, IdsRead(uid, gid));
    if Unshare in k.refused then Outcome(read, Some(UnshareFailed))
    else
      var unshared := Note(read, Unshared);
      match listing
      case None => Outcome(unshared, Some(ReadRootFailed))
      case Some(items) =>
        var mirrored := MirrorAll(unshared, items, k);
        if mirrored.fault.Some? then mirrored else MountStore(mirrored.fs, nixdir, k)
  }

  /** The events `Enter` logs when it reaches `exec`: setgroups only when it
      could be opened and written. */
  function EnterEvents(cwd: string, uid: Id, gid: Id, setgroups: bool): seq<Event>
  {
    [RootChanged, DirChanged("/")]
    + (if setgroups then [ProcWritten(SetgroupsPath, "deny")] else [])
    + [ProcWritten(UidMapPath, MapLine(uid)), ProcWritten(GidMapPath, MapLine(gid)), DirChanged(cwd)]
  }

  /** From `chroot` to `exec`: chroot, chdir to `/`, setgroups (best effort),
      uid map, gid map, restore the working directory, exec. */
  function Enter(fs: Fs, cmd: string, args: seq<string>, cwd: string, uid: Id, gid: Id, k: Kernel): Run
  {
    if ChangeRoot in k.refused then Run(Panicked(ChrootFailed), fs)
    else
      var rooted := Note(fs, RootChanged);
      if ChangeDir("/") in k.refused then Run(Panicked(ChdirFailed), rooted)
      else
        var atRoot := Note(rooted, DirChanged("/"));
        var denied :=
          if OpenProc(SetgroupsPath) in k.refused || WriteProc(SetgroupsPath) in k.refused then atRoot
          else Note(atRoot, ProcWritten(SetgroupsPath, "deny"));
        if OpenProc(UidMapPath) in k.refused || WriteProc(UidMapPath) in k.refused then Run(Panicked(UidMapFailed), denied)
        else
          var uidMapped := Note(denied, ProcWritten(UidMapPath, MapLine(uid)));
          if OpenProc(GidMapPath) in k.refused || WriteProc(GidMapPath) in k.refused then Run(Panicked(GidMapFailed), uidMapped)
          else
            var gidMapped := Note(uidMapped, ProcWritten(GidMapPath, MapLine(gid)));
            if ChangeDir(cwd) in k.refused then Run(Panicked(RestoreCwdFailed), gidMapped)
            else
              var restored := Note(gidMapped, DirChanged(cwd));
              if Exec(cmd) in k.refused then Run(ExitAfterExecFailure(1), Note(restored, ExecFailed(cmd)))
              else Run(Execed(cmd, args, [(ConfDirVar, ConfDir)]), restored)
  }

  /** `run_chroot`: the working directory is read first (fatal on failure),
      then `Prepare`, then `Enter`. */
  function ChildRun(fs: Fs, nixdir: string, cmd: string, args: seq<string>, cwd: Option<string>,
                    uid: Id, gid: Id, listing: Option<seq<Listed>>, k: Kernel): Run
  {
    match cwd
    case None => Run(Panicked(CwdFailed), fs)
    case Some(dir) =>
      var p := Prepare(fs, nixdir, uid, gid, listing, k);
      if p.fault.Some? then Run(Panicked(p.fault.value), p.fs)
      else Enter(p.fs, cmd, args, dir, uid, gid, k)
  }

  /** The texts written to the /proc file `path`, in order. */
  function WritesTo(log: seq<Event>, path: string): seq<string>
  {
    if log == [] then []
    else
      (if log[0].ProcWritten? && log[0].path == path then [log[0].text] else [])
      + WritesTo(log[1..], path)
  }

  lemma {:induction false} WritesToAppend(a: seq<Event>, b: seq<Event>, path: string)
    ensures WritesTo(a + b, path) == WritesTo(a, path) + WritesTo(b, path)
    decreases |a|
  {
    if a != [] {
      assert (a + b)[1..] == a[1..] + b;
      WritesToAppend(a[1..], b, path);
    } else {
      assert a + b == b;
    }
  }

  lemma {:induction false} NoProcWrites(log: seq<Event>, path: string)
    requires forall i :: 0 <= i < |log| ==> !(log[i].ProcWritten? && log[i].path == path)
    ensures WritesTo(log, path) == []
    decreases |log|
  {
    if log != [] {
      NoProcWrites(log[1..], path);
    }
  }

  /** The child reached `exec`, whether or not `exec` then failed. */
  predicate ReachedExec(r: Run) { r.end.Execed? || r.end.ExitAfterExecFailure? }

  /** Whether the best-effort setgroups write goes through. */
  predicate SetgroupsDenied(k: Kernel)
  {
    OpenProc(SetgroupsPath) !in k.refused && WriteProc(SetgroupsPath) !in k.refused
  }

  /** The state after `Prepare` from the fresh root, before mirroring. */
  function Unshared0(uid: Id, gid: Id): Fs { Fs(map[], [], [IdsRead(uid, gid), Unshared]) }

  lemma ReachedExecUnfolds(nixdir: string, cmd: string, args: seq<string>, cwd: Option<string>,
                           uid: Id, gid: Id, listing: Option<seq<Listed>>, k: Kernel)
    requires ReachedExec(ChildRun(FreshRoot, nixdir, cmd, args, cwd, uid, gid, listing, k))
    ensures cwd.Some? && listing.Some?
    ensures MirrorAll(Unshared0(uid, gid), listing.value, k).fault.None?
    ensures var p := MountStore(MirrorAll(Unshared0(uid, gid), listing.value, k).fs, nixdir, k);
      p.fault.None? &&
      ChildRun(FreshRoot, nixdir, cmd, args, cwd, uid, gid, listing, k) == Enter(p.fs, cmd, args, cwd.value, uid, gid, k)
  {
    assert Note(Note(FreshRoot, IdsRead(uid, gid)), Unshared) == Unshared0(uid, gid);
  }

  lemma EnterReached(fs: Fs, cmd: string, args: seq<string>, cwd: string, uid: Id, gid: Id, k: Kernel)
    requires ReachedExec(Enter(fs, cmd, args, cwd, uid, gid, k))
    ensures var r := Enter(fs, cmd, args, cwd, uid, gid, k);
      r.fs.nodes == fs.nodes && r.fs.mounts == fs.mounts &&
      r.fs.log == fs.log + EnterEvents(cwd, uid, gid, SetgroupsDenied(k))
                  + (if r.end.Execed? then [] else [ExecFailed(cmd)]) &&
      (r.end.Execed? ==> r.end == Execed(cmd, args, [(ConfDirVar, ConfDir)]))
  {
  }

  /** Step order of a child that reaches `exec` from the fresh root: the ids
      are read before `unshare`; mirroring logs nothing but bind warnings;
      then chroot, chdir to `/`, setgroups `deny` (when it could be written)
      before the uid map, the uid map before the gid map, and the working
      directory restored last. Nodes and mounts are those of the store step. */
  lemma ChildStepOrder(nixdir: string, cmd: string, args: seq<string>, cwd: Option<string>,
                       uid: Id, gid: Id, listing: Option<seq<Listed>>, k: Kernel)
    ensures var r := ChildRun(FreshRoot, nixdir, cmd, args, cwd, uid, gid, listing, k);
      ReachedExec(r) ==>
        cwd.Some? && listing.Some? &&
        var tail := EnterEvents(cwd.value, uid, gid, SetgroupsDenied(k))
                    + (if r.end.Execed? then [] else [ExecFailed(cmd)]);
        |r.fs.log| >= 2 + |tail| &&
        r.fs.log[..2] == [IdsRead(uid, gid), Unshared] &&
        r.fs.log[|r.fs.log| - |tail|..] == tail &&
        (forall i :: 2 <= i < |r.fs.log| - |tail| ==> r.fs.log[i].BindWarning?)
  {
    var r := ChildRun(FreshRoot, nixdir, cmd, args, cwd, uid, gid, listing, k);
    if ReachedExec(r) {
      ReachedExecUnfolds(nixdir, cmd, args, cwd, uid, gid, listing, k);
      var start := Unshared0(uid, gid);
      MirrorNeverTouchesStore(start, listing.value, k);
      var m := MirrorAll(start, listing.value, k);
      var p := MountStore(m.fs, nixdir, k);
      assert p.fs.log == m.fs.log;
      EnterReached(p.fs, cmd, args, cwd.value, uid, gid, k);
      var tail := EnterEvents(cwd.value, uid, gid, SetgroupsDenied(k))
                  + (if r.end.Execed? then [] else [ExecFailed(cmd)]);
      assert r.fs.log == p.fs.log + tail;
      assert r.fs.log[..2] == m.fs.log[..2];
    }
  }

  /** The writes to one map file among the events `Enter` logs before `exec`. */
  lemma EnterWritesAt(cwd: string, uid: Id, gid: Id, setgroups: bool, after: seq<Event>, path: string)
    requires path == UidMapPath || path == GidMapPath
    requires forall i :: 0 <= i < |after| ==> !after[i].ProcWritten?
    ensures WritesTo(EnterEvents(cwd, uid, gid, setgroups) + after, path)
         == if path == UidMapPath then [MapLine(uid)] else [MapLine(gid)]
  {
    assert UidMapPath != GidMapPath && path != SetgroupsPath by {
      assert UidMapPath[11] == 'u' && GidMapPath[11] == 'g' && SetgroupsPath[11] == 's';
    }
    var sg: seq<Event> := if setgroups then [ProcWritten(SetgroupsPath, "deny")] else [];
    var u := ProcWritten(UidMapPath, MapLine(uid));
    var g := ProcWritten(GidMapPath, MapLine(gid));
    var pre := [RootChanged, DirChanged("/")] + sg;
    var post := [DirChanged(cwd)] + after;
    assert EnterEvents(cwd, uid, gid, setgroups) + after == pre + ([u, g] + post);
    NoProcWrites(pre, path);
    NoProcWrites(post, path);
    WritesToAppend(pre, [u, g] + post, path);
    WritesToAppend([u, g], post, path);
    assert [u, g][1..] == [g] && [g][1..] == [];
  }

  /** The /proc writes among the events `Enter` logs before `exec`. */
  lemma EnterWrites(cwd: string, uid: Id, gid: Id, setgroups: bool, after: seq<Event>)
    requires forall i :: 0 <= i < |after| ==> !after[i].ProcWritten?
    ensures WritesTo(EnterEvents(cwd, uid, gid, setgroups) + after, UidMapPath) == [MapLine(uid)]
    ensures WritesTo(EnterEvents(cwd, uid, gid, setgroups) + after, GidMapPath) == [MapLine(gid)]
  {
    EnterWritesAt(cwd, uid, gid, setgroups, after, UidMapPath);
    EnterWritesAt(cwd, uid, gid, setgroups, after, GidMapPath);
  }

  /** The uid and gid maps each receive exactly one write, the identity line
      for the ids read before `unshare`, which reads back as the single
      extent mapping that id to itself with range 1. */
  lemma IdentityMapsWrittenOnce(nixdir: string, cmd: string, args: seq<string>, cwd: Option<string>,
                                uid: Id, gid: Id, listing: Option<seq<Listed>>, k: Kernel)
    ensures var r := ChildRun(FreshRoot, nixdir, cmd, args, cwd, uid, gid, listing, k);
      ReachedExec(r) ==>
        WritesTo(r.fs.log, UidMapPath) == [MapLine(uid)] &&
        WritesTo(r.fs.log, GidMapPath) == [MapLine(gid)] &&
        ParseMap(MapLine(uid)) == Some([Extent(uid, uid, 1)]) &&
        ParseMap(MapLine(gid)) == Some([Extent(gid, gid, 1)])
  {
    var r := ChildRun(FreshRoot, nixdir, cmd, args, cwd, uid, gid, listing, k);
    if ReachedExec(r) {
      ChildStepOrder(nixdir, cmd, args, cwd, uid, gid, listing, k);
      var after: seq<Event> := if r.end.Execed? then [] else [ExecFailed(cmd)];
      var tail := EnterEvents(cwd.value, uid, gid, SetgroupsDenied(k)) + after;
      var log := r.fs.log;
      var head := log[..|log| - |tail|];
      assert log == head + tail;
      assert forall i :: 0 <= i < |head| ==> !head[i].ProcWritten? by {
        assert head[..2] == [IdsRead(uid, gid), Unshared];
        forall i | 0 <= i < |head| ensures !head[i].ProcWritten? {
          if i < 2 { assert head[i] == head[..2][i]; } else { assert head[i] == log[i]; }
        }
      }
      EnterWrites(cwd.value, uid, gid, SetgroupsDenied(k), after);
      NoProcWrites(head, UidMapPath);
      NoProcWrites(head, GidMapPath);
      WritesToAppend(head, tail, UidMapPath);
      WritesToAppend(head, tail, GidMapPath);
      MapLineIsIdentity(uid);
      MapLineIsIdentity(gid);
    }
  }

  /** When the command is executed, it is the given command with the given
      arguments and `NIX_CONF_DIR` pointing into the store mount; the new
      root's `nix` is a directory whose only mount is the supplied store; and,
      for a listing with distinct names, every other host entry is reflected by kind. */
  lemma ExecOnlyIntoCompleteRoot(nixdir: string, cmd: string, args: seq<string>, cwd: Option<string>,
                                 uid: Id, gid: Id, listing: Option<seq<Listed>>, k: Kernel)
    ensures var r := ChildRun(FreshRoot, nixdir, cmd, args, cwd, uid, gid, listing, k);
      r.end.Execed? ==>
        r.end == Execed(cmd, args, [(ConfDirVar, ConfDir)]) &&
        listing.Some? &&
        StoreName in r.fs.nodes && r.fs.nodes[StoreName] == DirNode &&
        Bind(nixdir, StoreName) in r.fs.mounts &&
        (forall m :: m in r.fs.mounts && m.at == StoreName ==> m == Bind(nixdir, StoreName)) &&
        (DistinctNames(listing.value) ==> forall i :: 0 <= i < |listing.value| ==> Reflects(r.fs, listing.value[i]))
  {
    var r := ChildRun(FreshRoot, nixdir, cmd, args, cwd, uid, gid, listing, k);
    if r.end.Execed? {
      ReachedExecUnfolds(nixdir, cmd, args, cwd, uid, gid, listing, k);
      var start := Unshared0(uid, gid);
      var items := listing.value;
      var m := MirrorAll(start, items, k);
      StoreOnlyFromSupplied(start, items, nixdir, k);
      var p := MountStore(m.fs, nixdir, k);
      EnterReached(p.fs, cmd, args, cwd.value, uid, gid, k);
      if DistinctNames(items) {
        MirrorComplete(start, items, k);
        MirrorNeverTouchesStore(start, items, k);
        forall i | 0 <= i < |items| ensures Reflects(r.fs, items[i]) {
          var e := items[i];
          assert Reflects(m.fs, e);
          if e.name != StoreName {
            assert p.fs.mounts == m.fs.mounts + [Bind(nixdir, StoreName)];
            assert Bind(HostPath(e.name), e.name) in m.fs.mounts ==> Bind(HostPath(e.name), e.name) in p.fs.mounts;
          }
        }
      }
    }
  }

  /** The kernel `k` with the setgroups open and write let through. */
  function WithSetgroups(k: Kernel): Kernel
  {
    Kernel(k.refused - {OpenProc(SetgroupsPath), WriteProc(SetgroupsPath)})
  }

  /** Mirroring never opens a /proc file: it has the same effect whatever
      the kernel answers for setgroups. */
  lemma {:induction false} MirrorAllIgnoresSetgroups(fs: Fs, items: seq<Listed>, k: Kernel)
    ensures MirrorAll(fs, items, k) == MirrorAll(fs, items, WithSetgroups(k))
    decreases |items|
  {
    if items != [] {
      MirrorAllIgnoresSetgroups(fs, items[..|items| - 1], k);
    }
  }

  /** The steps before `chroot` never open a /proc file. */
  lemma PrepareIgnoresSetgroups(fs: Fs, nixdir: string, uid: Id, gid: Id, listing: Option<seq<Listed>>, k: Kernel)
    ensures Prepare(fs, nixdir, uid, gid, listing, k) == Prepare(fs, nixdir, uid, gid, listing, WithSetgroups(k))
  {
    if listing.Some? {
      MirrorAllIgnoresSetgroups(Note(Note(fs, IdsRead(uid, gid)), Unshared), listing.value, k);
    }
  }

  /** From `chroot` on, a refused setgroups open or write only leaves out
      its logged write. */
  lemma EnterIgnoresSetgroups(fs: Fs, cmd: string, args: seq<string>, cwd: string, uid: Id, gid: Id, k: Kernel)
    ensures var r := Enter(fs, cmd, args, cwd, uid, gid, k);
      var s := Enter(fs, cmd, args, cwd, uid, gid, WithSetgroups(k));
      r.end == s.end && r.fs.nodes == s.fs.nodes && r.fs.mounts == s.fs.mounts &&
      (SetgroupsDenied(k) ==> r == s)
  {
    assert UidMapPath != SetgroupsPath && GidMapPath != SetgroupsPath by {
      assert UidMapPath[11] == 'u' && GidMapPath[11] == 'g' && SetgroupsPath[11] == 's';
    }
  }

  /** Setgroups is best effort: a refused open or write of
      `/proc/self/setgroups` leaves out its one logged write and changes
      nothing else, neither how the child ends nor the nodes and mounts of
      the new root. */
  lemma SetgroupsBestEffort(fs: Fs, nixdir: string, cmd: string, args: seq<string>, cwd: Option<string>,
                            uid: Id, gid: Id, listing: Option<seq<Listed>>, k: Kernel)
    ensures var r := ChildRun(fs, nixdir, cmd, args, cwd, uid, gid, listing, k);
      var s := ChildRun(fs, nixdir, cmd, args, cwd, uid, gid, listing, WithSetgroups(k));
      r.end == s.end && r.fs.nodes == s.fs.nodes && r.fs.mounts == s.fs.mounts &&
      (SetgroupsDenied(k) ==> r == s)
  {
    if cwd.Some? {
      PrepareIgnoresSetgroups(fs, nixdir, uid, gid, listing, k);
      var p := Prepare(fs, nixdir, uid, gid, listing, k);
      if p.fault.None? {
        EnterIgnoresSetgroups(p.fs, cmd, args, cwd.value, uid, gid, k);
      }
    }
  }

  /** The new root being assembled, with the mounts made into it and the
      effects of the child so far. */
  class Sandbox {
    var nodes: map<string, Node>
    var mounts: seq<Mount>
    var log: seq<Event>

    function State(): Fs
      reads this
    {
      Fs(nodes, mounts, log)
    }

    /** The directory `mkdtemp` made: empty, nothing mounted, nothing done. */
    constructor ()
      ensures State() == FreshRoot
    {
      nodes, mounts, log := map[], [], [];
    }

    method Record(e: Event)
      modifies this
      ensures State() == Note(old(State()), e)
    {
      log := log + [e];
    }

    /** `bind_mount`. */
    method BindMountAt(source: string, at: string, k: Kernel)
      modifies this
      ensures State() == BindStep(old(State()), source, at, k)
    {
      if BindMount(source, at) in k.refused {
        log := log + [BindWarning(source, at)];
      } else {
        mounts := mounts + [Bind(source, at)];
      }
    }

    /** `bind_mount_directory`. */
    method BindMountDirectory(name: string, k: Kernel) returns (fault: Option<Fault>)
      modifies this
      ensures Outcome(State(), fault) == MirrorDirectory(old(State()), name, k)
    {
      if name !in nodes {
        if MakeDir(name) in k.refused {
          return Some(MakeDirFailed(name));
        }
        nodes := nodes[name := DirNode];
      }
      BindMountAt(HostPath(name), name, k);
      fault := None;
    }

    /** `bind_mount_file`. */
    method BindMountFile(name: string, k: Kernel) returns (fault: Option<Fault>)
      modifies this
      ensures Outcome(State(), fault) == MirrorFile(old(State()), name, k)
    {
      if CreateFile(name) in k.refused || (name in nodes && nodes[name] != FileNode) {
        return Some(CreateFileFailed(name));
      }
      nodes := nodes[name := FileNode];
      BindMountAt(HostPath(name), name, k);
      fault := None;
    }

    /** `mirror_symlink`. */
    method MirrorSymlinkEntry(name: string, link: Option<string>, k: Kernel) returns (fault: Option<Fault>)
      modifies this
      ensures Outcome(State(), fault) == MirrorSymlink(old(State()), name, link, k)
    {
      if link.None? {
        return Some(ReadLinkFailed(name));
      }
      if MakeSymlink(name) in k.refused || name in nodes {
        return Some(SymlinkFailed(name));
      }
      nodes := nodes[name := LinkNode(link.value)];
      fault := None;
    }

    /** `bind_mount_direntry`. */
    method BindMountDirentry(item: Listed, k: Kernel) returns (fault: Option<Fault>)
      modifies this
      ensures Outcome(State(), fault) == MirrorEntry(old(State()), item, k)
    {
      if item.ListError? {
        return Some(ListFailed);
      }
      if item.name == StoreName {
        return None;
      }
      match item.stat
      case None => fault := Some(StatFailed(item.name));
      case Some(Directory) => fault := BindMountDirectory(item.name, k);
      case Some(RegularFile) => fault := BindMountFile(item.name, k);
      case Some(Symlink) => fault := MirrorSymlinkEntry(item.name, item.link, k);
      case Some(OtherKind) => fault := None;
    }

    /** The `for` loop over the entries of `/`. */
    method MirrorHostRoot(items: seq<Listed>, k: Kernel) returns (fault: Option<Fault>)
      modifies this
      ensures Outcome(State(), fault) == MirrorAll(old(State()), items, k)
    {
      ghost var start := State();
      var i := 0;
      while i < |items|
        invariant 0 <= i <= |items|
        invariant MirrorAll(start, items[..i], k) == Outcome(State(), None)
      {
        assert items[..i + 1][..i] == items[..i];
        fault := BindMountDirentry(items[i], k);
        if fault.Some? {
          FaultStops(start, items, i + 1, k);
          return;
        }
        i := i + 1;
      }
      assert items[..i] == items;
      fault := None;
    }

    /** The store step: create `nix`, bind the supplied store onto it. */
    method MountStoreAt(nixdir: string, k: Kernel) returns (fault: Option<Fault>)
      modifies this
      ensures Outcome(State(), fault) == MountStore(old(State()), nixdir, k)
    {
      if StoreName in nodes || MakeDir(StoreName) in k.refused {
        return Some(StoreDirFailed);
      }
      nodes := nodes[StoreName := DirNode];
      if BindMount(nixdir, StoreName) in k.refused {
        return Some(StoreBindFailed);
      }
      mounts := mounts + [Bind(nixdir, StoreName)];
      fault := None;
    }

    /** Writing one /proc file: open, then write; either may fail. */
    method WriteProcFile(path: string, text: string, k: Kernel) returns (ok: bool)
      modifies this
      ensures ok == (OpenProc(path) !in k.refused && WriteProc(path) !in k.refused)
      ensures State() == if ok then Note(old(State()), ProcWritten(path, text)) else old(State())
    {
      ok := OpenProc(path) !in k.refused && WriteProc(path) !in k.refused;
      if ok {
        Record(ProcWritten(path, text));
      }
    }

    /** `run_chroot`, step by step. */
    method RunChroot(nixdir: string, cmd: string, args: seq<string>, cwd: Option<string>,
                     uid: Id, gid: Id, listing: Option<seq<Listed>>, k: Kernel) returns (end: ChildEnd)
      modifies this
      ensures Run(end, State()) == ChildRun(old(State()), nixdir, cmd, args, cwd, uid, gid, listing, k)
    {
      if cwd.None? {
        return Panicked(CwdFailed);
      }
      Record(IdsRead(uid, gid));
      if Unshare in k.refused {
        return Panicked(UnshareFailed);
      }
      Record(Unshared);
      if listing.None? {
        return Panicked(ReadRootFailed);
      }
      var fault := MirrorHostRoot(listing.value, k);
      if fault.Some? {
        return Panicked(fault.value);
      }
      fault := MountStoreAt(nixdir, k);
      if fault.Some? {
        return Panicked(fault.value);
      }
      if ChangeRoot in k.refused {
        return Panicked(ChrootFailed);
      }
      Record(RootChanged);
      if ChangeDir("/") in k.refused {
        return Panicked(ChdirFailed);
      }
      Record(DirChanged("/"));
      var _ := WriteProcFile(SetgroupsPath, "deny", k);
      var ok := WriteProcFile(UidMapPath, MapLine(uid), k);
      if !ok {
        return Panicked(UidMapFailed);
      }
      ok := WriteProcFile(GidMapPath, MapLine(gid), k);
      if !ok {
        return Panicked(GidMapFailed);
      }
      if ChangeDir(cwd.value) in k.refused {
        return Panicked(RestoreCwdFailed);
      }
      Record(DirChanged(cwd.value));
      if Exec(cmd) in k.refused {
        Record(ExecFailed(cmd));
        return ExitAfterExecFailure(1);
      }
      end := Execed(cmd, args, [(ConfDirVar, ConfDir)]);
    }
  }
}
