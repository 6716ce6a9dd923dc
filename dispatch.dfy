/** `main` and `get_implicit_nixdir` of src/main.rs: the multicall and
    explicit argument forms, the implicit store, and the order of the
    temporary root, the usage check and the fork. */
module Dispatch {
  import opened Text

  /** The names under which the program runs as the command of that name. */
  const NixCommands: seq<string> := [
    "nix", "nix-build", "nix-channel", "nix-collect-garbage", "nix-copy-closure", "nix-daemon",
    "nix-env", "nix-hash", "nix-instantiate", "nix-prefetch-url", "nix-shell", "nix-store"
  ]

  /** The segments of a path that are not empty and not `.`: the components
      `Path::components` yields past the root. */
  function Normal(segments: seq<string>): seq<string>
  {
    if segments == [] then []
    else (if segments[0] == "" || segments[0] == "." then [] else [segments[0]]) + Normal(segments[1..])
  }

  /** `Path::file_name`: the last component if it is a name; None for a path
      that is empty, the root, `.`, or ends in `..`. */
  function FileName(path: string): Option<string>
  {
    var c := Normal(Split(path, '/'));
    if c == [] || c[|c| - 1] == ".." then None else Some(c[|c| - 1])
  }

  /** The multicall command selected by `args[0]`, if its file name is one of `NixCommands`. */
  function MulticallName(arg0: string): (r: Option<string>)
    ensures r.Some? <==> FileName(arg0).Some? && FileName(arg0).value in NixCommands
    ensures r.Some? ==> r == FileName(arg0)
  {
    match FileName(arg0)
    case Some(n) => if n in NixCommands then Some(n) else None
    case None => None
  }

  /** The XDG fallback of `get_implicit_nixdir`, left opaque: the data
      directory exists, does not exist, or the base directories cannot be found. */
  datatype DataHome = DataDir(path: string) | DataDirMissing | XdgFailed

  datatype StoreDir = StoreAt(path: string) | StoreExit(code: int) | StorePanic

  /** `get_implicit_nixdir`: a non-empty `NIX_USER_CHROOT_DIR` wins; otherwise
      the XDG data directory, exit 2 when it does not exist. */
  function ImplicitNixdir(envVar: Option<string>, fallback: DataHome): (r: StoreDir)
    ensures envVar.Some? && envVar.value != "" ==> r == StoreAt(envVar.value)
    ensures r.StoreExit? ==> r.code == 2
  {
    if envVar.Some? && envVar.value != "" then StoreAt(envVar.value)
    else
      match fallback
      case DataDir(p) => StoreAt(p)
      case DataDirMissing => StoreExit(2)
      case XdgFailed => StorePanic
  }

  /** The store and the command vector `main` hands on, or how it stops. */
  datatype Launch = Launch(nixdir: string, argv: seq<string>) | Exit(code: int) | Panic

  /** The `(nixdir, args)` match of `main`. `canonical` is what
      `fs::canonicalize(args[1])` returns. An empty argument vector makes
      `args[0]` panic. */
  function Dispatch(args: seq<string>, envVar: Option<string>, fallback: DataHome, canonical: Option<string>): (r: Launch)
    ensures r.Launch? ==> |r.argv| >= 1
    ensures r.Exit? ==> r.code == 1 || r.code == 2
  {
    if args == [] then Panic
    else
      match MulticallName(args[0])
      case Some(cmd) =>
        (match ImplicitNixdir(envVar, fallback)
         case StoreAt(p) => Launch(p, [cmd] + args[1..])
         case StoreExit(c) => Exit(c)
         case StorePanic => Panic)
      case None =>
        if |args| < 3 then Exit(1)
        else
          match canonical
          case Some(p) => Launch(p, args[2..])
          case None => Panic
  }

  datatype ForkResult = ParentOf(child: int) | InChild | ForkFailed

  /** Where `main` goes: a panic, an exit, the supervisor (`wait_for_child`),
      or the child (`run_chroot` with the command and its arguments). */
  datatype Next =
    | MainPanicked
    | MainExit(code: int)
    | Supervising(rootdir: string, child: int)
    | InNewRoot(rootdir: string, nixdir: string, cmd: string, cmdArgs: seq<string>)

  /** The outcome of `main`, and whether it created the temporary root. */
  datatype MainRun = MainRun(tempRootCreated: bool, next: Next)

  /** `main`: the temporary root is made first (by `mkdtemp`, here only its
      result), then the arguments are dispatched, then the process forks.
      A failed fork is reported and `main` returns, i.e. exits with 0. */
  function Main(args: seq<string>, mkdtemp: Option<string>, envVar: Option<string>, fallback: DataHome,
                canonical: Option<string>, fork: ForkResult): (r: MainRun)
    ensures r.tempRootCreated <==> mkdtemp.Some?
    ensures r.next.MainExit? ==> r.next.code == 0 || r.next.code == 1 || r.next.code == 2
    ensures r.next.MainExit? && r.next.code == 0 <==> mkdtemp.Some? && Dispatch(args, envVar, fallback, canonical).Launch? && fork == ForkFailed
    ensures r.next.Supervising? <==> mkdtemp.Some? && Dispatch(args, envVar, fallback, canonical).Launch? && fork.ParentOf?
    ensures r.next.Supervising? ==> r.next == Supervising(mkdtemp.value, fork.child)
    ensures r.next.InNewRoot? <==> mkdtemp.Some? && Dispatch(args, envVar, fallback, canonical).Launch? && fork == InChild
    ensures r.next.InNewRoot? ==> r.next.rootdir == mkdtemp.value
  {
    match mkdtemp
    case None => MainRun(false, MainPanicked)
    case Some(root) =>
      match Dispatch(args, envVar, fallback, canonical)
      case Panic => MainRun(true, MainPanicked)
      case Exit(c) => MainRun(true, MainExit(c))
      case Launch(nixdir, argv) =>
        match fork
        case ParentOf(child) => MainRun(true, Supervising(root, child))
        case InChild => MainRun(true, InNewRoot(root, nixdir, argv[0], argv[1..]))
        case ForkFailed => MainRun(true, MainExit(0))
  }

  // ---------------------------------------------------------------------
  // Properties of the dispatch

  lemma {:induction false} NormalAppend(a: seq<string>, b: seq<string>)
    ensures Normal(a + b) == Normal(a) + Normal(b)
    decreases |a|
  {
    if a == [] {
      assert a + b == b;
    } else {
      assert (a + b)[0] == a[0] && (a + b)[1..] == a[1..] + b;
      NormalAppend(a[1..], b);
    }
  }

  /** A name that can stand as a path component. */
  predicate PlainName(name: string)
  {
    name != "" && name != "." && name != ".." && '/' !in name
  }

  /** The file name of a path ending in a plain name is that name, whatever
      directory precedes it (`/usr/bin/nix-env` gives `nix-env`). */
  lemma FileNameOfPath(dir: string, name: string)
    requires PlainName(name)
    ensures FileName(name) == Some(name)
    ensures FileName(dir + "/" + name) == Some(name)
  {
    SplitWithout(name, '/');
    assert Normal([name]) == [name] by {
      assert [name][1..] == [];
    }
    SplitAround(dir, '/', name);
    assert dir + "/" + name == dir + ['/'] + name;
    NormalAppend(Split(dir, '/'), [name]);
  }

  /** Every multicall command is a plain name. */
  lemma CommandsArePlain(i: nat)
    requires i < |NixCommands|
    ensures PlainName(NixCommands[i])
  {
    var n := NixCommands[i];
    assert n[0] == 'n' && |n| >= 3;
    forall j | 0 <= j < |n| ensures n[j] != '/' {
      assert n[j] == '-' || 'a' <= n[j] <= 'z';
    }
  }

  /** A program run as `dir/name`, or as `name`, for one of the twelve
      commands, runs in multicall form under that name. */
  lemma MulticallFromPath(dir: string, name: string)
    requires name in NixCommands
    ensures MulticallName(dir + "/" + name) == Some(name)
    ensures MulticallName(name) == Some(name)
  {
    var i :| 0 <= i < |NixCommands| && NixCommands[i] == name;
    CommandsArePlain(i);
    FileNameOfPath(dir, name);
  }

  /** Multicall form: when the file name of `args[0]` is one of the twelve
      commands, the command vector is that name followed by `args[1..]`
      verbatim, and a non-empty `NIX_USER_CHROOT_DIR` is the store. */
  lemma MulticallDispatch(args: seq<string>, envVar: Option<string>, fallback: DataHome, canonical: Option<string>)
    requires |args| >= 1 && MulticallName(args[0]).Some?
    ensures var r := Dispatch(args, envVar, fallback, canonical);
      var name := MulticallName(args[0]).value;
      name in NixCommands && FileName(args[0]) == Some(name) &&
      (envVar.Some? && envVar.value != "" ==> r == Launch(envVar.value, [name] + args[1..])) &&
      (r.Launch? ==> r.argv == [name] + args[1..]) &&
      (r.Exit? ==> r.code == 2) &&
      (fallback == DataDirMissing && (envVar.None? || envVar.value == "") ==> r == Exit(2))
  {
  }

  /** Explicit form: fewer than three arguments is a usage error with exit 1;
      otherwise the store is the canonical `args[1]` and the command vector `args[2..]`. */
  lemma ExplicitDispatch(args: seq<string>, envVar: Option<string>, fallback: DataHome, canonical: Option<string>)
    requires |args| >= 1 && MulticallName(args[0]).None?
    ensures var r := Dispatch(args, envVar, fallback, canonical);
      (|args| < 3 <==> r == Exit(1)) &&
      (|args| >= 3 && canonical.Some? ==> r == Launch(canonical.value, args[2..]))
  {
  }

  /** A usage error exits with 1 only after the temporary root was created. */
  lemma UsageErrorAfterTempRoot(args: seq<string>, root: string, envVar: Option<string>, fallback: DataHome,
                                canonical: Option<string>, fork: ForkResult)
    requires 1 <= |args| < 3 && MulticallName(args[0]).None?
    ensures Main(args, Some(root), envVar, fallback, canonical, fork) == MainRun(true, MainExit(1))
  {
  }

  /** The child runs the first element of the command vector with the
      remaining elements as its arguments, in the temporary root. */
  lemma ChildRunsCommandVector(args: seq<string>, root: string, envVar: Option<string>, fallback: DataHome,
                               canonical: Option<string>)
    ensures var m := Main(args, Some(root), envVar, fallback, canonical, InChild);
      var d := Dispatch(args, envVar, fallback, canonical);
      (m.next.InNewRoot? <==> d.Launch?) &&
      (d.Launch? ==> m.next == InNewRoot(root, d.nixdir, d.argv[0], d.argv[1..]) &&
                     [m.next.cmd] + m.next.cmdArgs == d.argv)
  {
  }
}
