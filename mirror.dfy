/** The root mirroring plan of `RunChroot` (src/main.rs): every top-level entry
    of the host's `/` is replicated into the new root by kind, the host's own
    `nix` entry is skipped, and the supplied store is then bound at `nix`.
    The kernel is replaced by abstract state (`Fs`) and by an oracle (`Kernel`)
    that says which system calls fail. The operations, events and faults of
    the whole child (module Chroot) are declared here with it, so that one
    state and one oracle serve both modules. */
module Mirror {
  import opened Text

  /** The kind `DirEntry::metadata` reports; it does not follow symlinks. */
  datatype FileKind = Directory | RegularFile | Symlink | OtherKind

  /** One item yielded while listing the host's `/`. `stat` is None when
      `metadata()` fails; `link` is what `read_link` returns (None: it fails). */
  datatype Listed =
    | ListError
    | Entry(name: string, stat: Option<FileKind>, link: Option<string>)

  /** A node at the top level of the new root. */
  datatype Node = DirNode | FileNode | LinkNode(target: string)

  /** A recursive bind mount of the host path `source` onto the top-level
      entry `at` of the new root. */
  datatype Mount = Bind(source: string, at: string)

  /** The system calls whose failure the model distinguishes. */
  datatype Op =
    | MakeDir(name: string)
    | CreateFile(name: string)
    | MakeSymlink(name: string)
    | BindMount(source: string, at: string)
    | Unshare
    | ChangeRoot
    | ChangeDir(path: string)
    | OpenProc(path: string)
    | WriteProc(path: string)
    | Exec(cmd: string)

  /** The kernel as an oracle: every operation in `refused` fails when tried. */
  datatype Kernel = Kernel(refused: set<Op>)

  /** What the child has done so far, in order (besides nodes and mounts). */
  datatype Event =
    | BindWarning(source: string, at: string)
    | IdsRead(uid: nat, gid: nat)
    | Unshared
    | RootChanged
    | DirChanged(path: string)
    | ProcWritten(path: string, text: string)
    | ExecFailed(cmd: string)

  /** The abstract state of the new root and of the child's effects. */
  datatype Fs = Fs(nodes: map<string, Node>, mounts: seq<Mount>, log: seq<Event>)

  /** The reasons the child panics. */
  datatype Fault =
    | CwdFailed
    | UnshareFailed
    | ReadRootFailed
    | ListFailed
    | StatFailed(name: string)
    | MakeDirFailed(name: string)
    | CreateFileFailed(name: string)
    | ReadLinkFailed(name: string)
    | SymlinkFailed(name: string)
    | StoreDirFailed
    | StoreBindFailed
    | ChrootFailed
    | ChdirFailed
    | UidMapFailed
    | GidMapFailed
    | RestoreCwdFailed

  /** The state reached, and the fault that stopped the run if any. */
  datatype Outcome = Outcome(fs: Fs, fault: Option<Fault>)

  /** The name reserved for the package store in the new root. */
  const StoreName := "nix"

  /** `entry.path()` for an entry of `read_dir("/")`. */
  function HostPath(name: string): string { "/" + name }

  /** The empty directory `mkdtemp` creates. */
  const FreshRoot := Fs(map[], [], [])

  /** `bind_mount`: a recursive bind whose failure is only a warning. */
  function BindStep(fs: Fs, source: string, at: string, k: Kernel): Fs
  {
    if BindMount(source, at) in k.refused then fs.(log := fs.log + [BindWarning(source, at)])
    else fs.(mounts := fs.mounts + [Bind(source, at)])
  }

  /** `bind_mount_directory`: an existing node is tolerated (AlreadyExists),
      any other creation failure is fatal, then the host directory is bound. */
  function MirrorDirectory(fs: Fs, name: string, k: Kernel): Outcome
  {
    if name in fs.nodes then Outcome(BindStep(fs, HostPath(name), name, k), None)
    else if MakeDir(name) in k.refused then Outcome(fs, Some(MakeDirFailed(name)))
    else Outcome(BindStep(fs.(nodes := fs.nodes[name := DirNode]), HostPath(name), name, k), None)
  }

  /** `bind_mount_file`: `File::create` (which truncates an existing regular
      file and fails on anything else) is fatal on failure, then the host file is bound. */
  function MirrorFile(fs: Fs, name: string, k: Kernel): Outcome
  {
    if CreateFile(name) in k.refused || (name in fs.nodes && fs.nodes[name] != FileNode) then
      Outcome(fs, Some(CreateFileFailed(name)))
    else Outcome(BindStep(fs.(nodes := fs.nodes[name := FileNode]), HostPath(name), name, k), None)
  }

  /** `mirror_symlink`: the link is read and recreated with the same target;
      both steps are fatal on failure (an existing node makes `symlink` fail). */
  function MirrorSymlink(fs: Fs, name: string, link: Option<string>, k: Kernel): Outcome
  {
    match link
    case None => Outcome(fs, Some(ReadLinkFailed(name)))
    case Some(target) =>
      if MakeSymlink(name) in k.refused || name in fs.nodes then Outcome(fs, Some(SymlinkFailed(name)))
      else Outcome(fs.(nodes := fs.nodes[name := LinkNode(target)]), None)
  }

  /** `bind_mount_direntry`: a listing error is fatal; `nix` is skipped before
      its metadata is read; otherwise the effect is chosen by kind. */
  function MirrorEntry(fs: Fs, item: Listed, k: Kernel): Outcome
  {
    match item
    case ListError => Outcome(fs, Some(ListFailed))
    case Entry(name, stat, link) =>
      if name == StoreName then Outcome(fs, None)
      else
        match stat
        case None => Outcome(fs, Some(StatFailed(name)))
        case Some(Directory) => MirrorDirectory(fs, name, k)
        case Some(RegularFile) => MirrorFile(fs, name, k)
        case Some(Symlink) => MirrorSymlink(fs, name, link, k)
        case Some(OtherKind) => Outcome(fs, None)
  }

  /** The `for` loop of `run_chroot` over the listing: entries in order,
      stopping at the first fatal one. */
  function MirrorAll(fs: Fs, items: seq<Listed>, k: Kernel): Outcome
    decreases |items|
  {
    if items == [] then Outcome(fs, None)
    else
      var before := MirrorAll(fs, items[..|items| - 1], k);
      if before.fault.Some? then before else MirrorEntry(before.fs, items[|items| - 1], k)
  }

  /** The store step of `run_chroot`: `create_dir` of `nix`, then the bind of
      the supplied store onto it; both are fatal on failure. */
  function MountStore(fs: Fs, nixdir: string, k: Kernel): Outcome
  {
    if StoreName in fs.nodes || MakeDir(StoreName) in k.refused then Outcome(fs, Some(StoreDirFailed))
    else
      var made := fs.(nodes := fs.nodes[StoreName := DirNode]);
      if BindMount(nixdir, StoreName) in k.refused then Outcome(made, Some(StoreBindFailed))
      else Outcome(made.(mounts := made.mounts + [Bind(nixdir, StoreName)]), None)
  }

  // ---------------------------------------------------------------------
  // Properties of the mirroring plan

  /** A fatal entry ends the loop: the entries after it change nothing. */
  lemma {:induction false} FaultStops(fs: Fs, items: seq<Listed>, j: nat, k: Kernel)
    requires j <= |items|
    requires MirrorAll(fs, items[..j], k).fault.Some?
    ensures MirrorAll(fs, items, k) == MirrorAll(fs, items[..j], k)
    decreases |items| - j
  {
    if j < |items| {
      var init := items[..|items| - 1];
      assert init[..j] == items[..j];
      FaultStops(fs, init, j, k);
    } else {
      assert items[..j] == items;
    }
  }

  /** The host's `nix` entry is skipped whatever its metadata would say, even
      when reading that metadata would fail. */
  lemma StoreEntrySkipped(fs: Fs, stat: Option<FileKind>, link: Option<string>, k: Kernel)
    ensures MirrorEntry(fs, Entry(StoreName, stat, link), k) == Outcome(fs, None)
  {
  }

  /** Which creation failures are fatal, kind by kind: an existing node is
      tolerated for a directory only; a refused bind is never fatal. */
  lemma CreationFailurePolicy(fs: Fs, name: string, link: Option<string>, k: Kernel)
    requires name != StoreName
    ensures MirrorEntry(fs, Entry(name, Some(Directory), link), k).fault.None?
        <==> name in fs.nodes || MakeDir(name) !in k.refused
    ensures MirrorEntry(fs, Entry(name, Some(RegularFile), link), k).fault.None?
        <==> CreateFile(name) !in k.refused && (name in fs.nodes ==> fs.nodes[name] == FileNode)
    ensures MirrorEntry(fs, Entry(name, Some(Symlink), link), k).fault.None?
        <==> link.Some? && MakeSymlink(name) !in k.refused && name !in fs.nodes
    ensures MirrorEntry(fs, Entry(name, Some(OtherKind), link), k) == Outcome(fs, None)
    ensures MirrorEntry(fs, Entry(name, None, link), k).fault == Some(StatFailed(name))
  {
  }

  /** What one step may change: only the node of its own entry, mounts of its
      own host path at its own name appended, bind warnings appended. */
  predicate StepShape(fs: Fs, fs': Fs, name: string)
  {
    (forall n :: n in fs'.nodes && n != name ==> n in fs.nodes && fs'.nodes[n] == fs.nodes[n]) &&
    (forall n :: n in fs.nodes && n != name ==> n in fs'.nodes) &&
    |fs.mounts| <= |fs'.mounts| && fs'.mounts[..|fs.mounts|] == fs.mounts &&
    (forall i :: |fs.mounts| <= i < |fs'.mounts| ==> fs'.mounts[i] == Bind(HostPath(name), name)) &&
    |fs.log| <= |fs'.log| && fs'.log[..|fs.log|] == fs.log &&
    (forall i :: |fs.log| <= i < |fs'.log| ==> fs'.log[i] == BindWarning(HostPath(name), name))
  }

  lemma EntryShape(fs: Fs, item: Listed, k: Kernel)
    requires item.Entry?
    ensures StepShape(fs, MirrorEntry(fs, item, k).fs, item.name)
  {
  }

  /** Mounts appended after the first `start` ones, and events logged after
      the first `logged` ones, are all about mirrored host entries other than `nix`. */
  predicate OnlyMirrorMounts(fs: Fs, start: nat, logged: nat)
  {
    start <= |fs.mounts| && logged <= |fs.log| &&
    (forall i :: start <= i < |fs.mounts| ==>
      fs.mounts[i].at != StoreName && fs.mounts[i].source == HostPath(fs.mounts[i].at)) &&
    (forall i :: logged <= i < |fs.log| ==> fs.log[i].BindWarning?)
  }

  /** Mirroring never creates, replaces or binds anything at `nix`, keeps the
      mounts and events already there, and adds only mirror binds and bind warnings. */
  lemma {:induction false} MirrorNeverTouchesStore(fs: Fs, items: seq<Listed>, k: Kernel)
    ensures var o := MirrorAll(fs, items, k).fs;
      (StoreName in o.nodes <==> StoreName in fs.nodes) &&
      (StoreName in fs.nodes ==> o.nodes[StoreName] == fs.nodes[StoreName]) &&
      |fs.mounts| <= |o.mounts| && o.mounts[..|fs.mounts|] == fs.mounts &&
      |fs.log| <= |o.log| && o.log[..|fs.log|] == fs.log &&
      OnlyMirrorMounts(o, |fs.mounts|, |fs.log|)
    decreases |items|
  {
    if items != [] {
      var init := items[..|items| - 1];
      MirrorNeverTouchesStore(fs, init, k);
      var before := MirrorAll(fs, init, k);
      if before.fault.None? {
        var last := items[|items| - 1];
        if last.Entry? {
          EntryShape(before.fs, last, k);
          var o := MirrorEntry(before.fs, last, k).fs;
          if last.name != StoreName {
            assert o.mounts[..|before.fs.mounts|] == before.fs.mounts;
            assert o.mounts[..|fs.mounts|] == before.fs.mounts[..|fs.mounts|];
            assert o.log[..|fs.log|] == before.fs.log[..|fs.log|];
            forall i | |fs.mounts| <= i < |o.mounts|
              ensures o.mounts[i].at != StoreName && o.mounts[i].source == HostPath(o.mounts[i].at)
            {
              if i < |before.fs.mounts| { assert o.mounts[i] == before.fs.mounts[i]; }
            }
            forall i | |fs.log| <= i < |o.log| ensures o.log[i].BindWarning? {
              if i < |before.fs.log| { assert o.log[i] == before.fs.log[i]; }
            }
          }
        }
      }
    }
  }

  /** The new root's `nix` comes only from the supplied store. Starting from
      an empty root without mounts, once mirroring has succeeded the store step can fail only
      because the kernel refuses it (never because `nix` already exists), and
      when it succeeds `nix` is a directory whose only mount is the store. */
  lemma StoreOnlyFromSupplied(fs: Fs, items: seq<Listed>, nixdir: string, k: Kernel)
    requires fs.nodes == map[] && fs.mounts == []
    requires MirrorAll(fs, items, k).fault.None?
    ensures var s := MountStore(MirrorAll(fs, items, k).fs, nixdir, k);
      (s.fault.None? <==> MakeDir(StoreName) !in k.refused && BindMount(nixdir, StoreName) !in k.refused) &&
      (s.fault.None? ==>
        s.fs.nodes[StoreName] == DirNode &&
        Bind(nixdir, StoreName) in s.fs.mounts &&
        forall m :: m in s.fs.mounts && m.at == StoreName ==> m == Bind(nixdir, StoreName))
  {
    MirrorNeverTouchesStore(fs, items, k);
    var o := MirrorAll(fs, items, k).fs;
    var s := MountStore(o, nixdir, k);
    if s.fault.None? {
      assert s.fs.mounts == o.mounts + [Bind(nixdir, StoreName)];
      forall m | m in s.fs.mounts && m.at == StoreName ensures m == Bind(nixdir, StoreName) {
        var i :| 0 <= i < |s.fs.mounts| && s.fs.mounts[i] == m;
        assert i >= |o.mounts| by {
          assert forall j :: 0 <= j < |o.mounts| ==> s.fs.mounts[j] == o.mounts[j];
        }
      }
    }
  }

  /** `name` was bound from the host, or its bind failed with a warning. */
  predicate Bound(fs: Fs, name: string)
  {
    Bind(HostPath(name), name) in fs.mounts || BindWarning(HostPath(name), name) in fs.log
  }

  /** The new root shows the host entry `e` as the mirroring promises. */
  predicate Reflects(fs: Fs, e: Listed)
  {
    match e
    case ListError => false
    case Entry(name, stat, link) =>
      name == StoreName ||
      (stat.Some? &&
       match stat.value
       case Directory => name in fs.nodes && fs.nodes[name] == DirNode && Bound(fs, name)
       case RegularFile => name in fs.nodes && fs.nodes[name] == FileNode && Bound(fs, name)
       case Symlink => link.Some? && name in fs.nodes && fs.nodes[name] == LinkNode(link.value)
       case OtherKind => name !in fs.nodes)
  }

  /** `read_dir` lists every name once. */
  predicate DistinctNames(items: seq<Listed>)
  {
    forall i, j :: 0 <= i < j < |items| && items[i].Entry? && items[j].Entry? ==> items[i].name != items[j].name
  }

  /** Some listed entry other than `nix` is called `n`. */
  predicate NamedIn(items: seq<Listed>, n: string)
  {
    exists i :: 0 <= i < |items| && items[i].Entry? && items[i].name == n && n != StoreName
  }

  lemma ReflectsKept(fs: Fs, fs': Fs, e: Listed, name: string)
    requires Reflects(fs, e) && StepShape(fs, fs', name)
    requires e.Entry? && e.name != name
    requires e.stat == Some(OtherKind) ==> e.name !in fs'.nodes
    ensures Reflects(fs', e)
  {
    if e.name != StoreName {
      if Bind(HostPath(e.name), e.name) in fs.mounts {
        var i :| 0 <= i < |fs.mounts| && fs.mounts[i] == Bind(HostPath(e.name), e.name);
        assert fs'.mounts[i] == fs'.mounts[..|fs.mounts|][i];
      }
      if BindWarning(HostPath(e.name), e.name) in fs.log {
        var i :| 0 <= i < |fs.log| && fs.log[i] == BindWarning(HostPath(e.name), e.name);
        assert fs'.log[i] == fs'.log[..|fs.log|][i];
      }
    }
  }

  /** Mirrored-tree completeness: when mirroring the host's distinct entries
      into an empty root does not abort, every entry other than `nix` is
      reflected by kind (a directory or file bound from the host or warned
      about, a symlink with the identical target, any other kind absent), and
      the new root holds nothing else. */
  lemma {:induction false} MirrorComplete(fs: Fs, items: seq<Listed>, k: Kernel)
    requires fs.nodes == map[]
    requires DistinctNames(items)
    requires MirrorAll(fs, items, k).fault.None?
    ensures var o := MirrorAll(fs, items, k).fs;
      (forall i :: 0 <= i < |items| ==> Reflects(o, items[i])) &&
      (forall n :: n in o.nodes ==> NamedIn(items, n))
    decreases |items|
  {
    if items != [] {
      var init := items[..|items| - 1];
      var last := items[|items| - 1];
      assert DistinctNames(init);
      MirrorComplete(fs, init, k);
      var before := MirrorAll(fs, init, k);
      var o := MirrorAll(fs, items, k).fs;
      assert last.Entry?;
      EntryShape(before.fs, last, k);
      forall j | 0 <= j < |init| && init[j].Entry? ensures init[j].name != last.name {
        assert items[j] == init[j];
      }
      assert last.name != StoreName ==> last.name !in before.fs.nodes;
      forall i | 0 <= i < |items| ensures Reflects(o, items[i]) {
        if i < |items| - 1 {
          assert items[i] == init[i];
          if last.name == StoreName {
            assert o == before.fs;
          } else {
            ReflectsKept(before.fs, o, items[i], last.name);
          }
        } else if last.name != StoreName {
          assert Bound(o, last.name) <== (o.mounts == before.fs.mounts + [Bind(HostPath(last.name), last.name)]);
          assert Bound(o, last.name) <== (o.log == before.fs.log + [BindWarning(HostPath(last.name), last.name)]);
        }
      }
      forall n | n in o.nodes ensures NamedIn(items, n) {
        if n in before.fs.nodes {
          var j :| 0 <= j < |init| && init[j].Entry? && init[j].name == n && n != StoreName;
          assert items[j] == init[j];
        } else {
          assert items[|items| - 1].name == n;
        }
      }
    }
  }

  /** The kernel with every bind succeeding and every other answer unchanged. */
  function WithoutBindFailures(k: Kernel): Kernel
  {
    Kernel(set op | op in k.refused && !op.BindMount?)
  }

  /** A failed bind of a mirrored entry is only a warning: whether and where
      mirroring aborts, and the nodes it creates, are exactly those of the same
      run in which every bind succeeds. */
  lemma {:induction false} BindFailuresNeverAbort(fs: Fs, items: seq<Listed>, k: Kernel)
    ensures var a := MirrorAll(fs, items, k);
      var b := MirrorAll(fs, items, WithoutBindFailures(k));
      a.fault == b.fault && a.fs.nodes == b.fs.nodes
    decreases |items|
  {
    if items != [] {
      BindFailuresNeverAbort(fs, items[..|items| - 1], k);
    }
  }
}
