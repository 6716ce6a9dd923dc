# nix-user-chroot, modelled in Dafny

nix-user-chroot runs a command in a private mount and user namespace. Inside
that namespace the host's `/` is mirrored into a fresh temporary root, and a
user-supplied package store is bound at `/nix`. The whole program is
`src/main.rs`, and this project models its deterministic rules:

- **Mirroring the root** (`RunChroot::bind_mount_direntry` and its helpers,
  and the store step of `run_chroot`):
  - every top-level entry of `/` except `nix` is reproduced by kind;
  - the store is then bound at `nix`;
  - each step has its own failure policy.
- **The child's step order** (`run_chroot`): working directory read, ids
  read, `unshare`, mirroring, store, `chroot`, `chdir /`, best-effort
  `setgroups`, uid map, gid map, working directory restored, `exec` with
  `NIX_CONF_DIR`.
- **The identity maps**: the line `"<id> <id> 1"`, and a strict reader of
  the map format that accepts such lines and reads them back as extents.
- **The supervisor** (`wait_for_child`): the loop over `waitpid` results,
  signal forwarding, and removal of the temporary root before every
  `process::exit`.
- **Argument dispatch** (`main`, `get_implicit_nixdir`): the multicall form,
  the explicit form, the implicit store, and the order of temporary root,
  usage check and fork.

The kernel never runs here. The new root is an abstract state `Mirror.Fs`:
- a map from top-level name to node kind;
- the list of bind mounts made into the root;
- a log of the child's other effects.

The child's system calls from `unshare` to `exec` consult an oracle,
`Mirror.Kernel`, which says which of them fail. `create_dir`'s "already
exists" is not an oracle answer: it comes from the state, when the name is
already in the map. The supervisor's `kill` of itself and its
`remove_dir_all` consult a second oracle, `Supervisor.Host`, which also
says which signals end the supervisor when it sends them to itself. The
remaining calls enter as parameters, namely their results:
- in `main`: `mkdtemp`, `fork`, `fs::canonicalize` and the XDG lookup;
- in the child: `current_dir`, `getuid`, `getgid`, `read_dir`, and, per
  listed entry, `DirEntry::metadata` and `read_link` (fields of each
  `Mirror.Listed` item).

The child's state is changed in place by the class `Chroot.Sandbox`. Each of
its methods is proved equal to a function on `Fs`, and the properties are
proved about those functions. The supervisor is the method
`Supervisor.WaitForChild`, which loops over a sequence of `waitpid` results
and is proved equal to `Supervisor.Supervise`. When that sequence runs out,
the supervisor is still waiting.

Files:
- `text.dfy`: splitting text on a separator.
- `idmap.dfy`: the decimal map line and how it parses back.
- `mirror.dfy`: the mirroring plan and its properties.
- `chroot.dfy`: the child's steps and the `Sandbox` class.
- `supervisor.dfy`: `wait_for_child`.
- `dispatch.dfy`: `main` and `get_implicit_nixdir`.

Behaviours of the code worth knowing, each proved as written:

- A child stopped by SIGSTOP is reported by `waitpid` as `Stopped`. The loop
  has no arm for `Stopped`, so the supervisor removes the root and exits with
  1 instead of stopping itself (`Supervisor.StoppedChildEndsSupervision`).
  The job-control arm exists only for `Signaled(_, SIGSTOP)`.
- The `Signaled` arm for any other signal has no `break`: the supervisor
  sends itself the signal that killed the child. When that signal's action
  is to terminate (SIGTERM, SIGKILL, SIGINT, SIGSEGV, ...), the supervisor
  dies by it inside `kill`, before any cleanup, and the temporary root is
  left behind (`Supervisor.FatalSignalLeavesRoot`). Only a signal the
  supervisor survives, such as an ignored SIGPIPE, lets it keep waiting
  (`Supervisor.SignalsNeverEndLoop`). If it cannot send the signal, it
  panics, again without removing the root.
- The temporary root is created before the usage check, so a usage error
  exits with 1 and leaves the directory behind
  (`Dispatch.UsageErrorAfterTempRoot`).
- A failed `fork` is reported, then `main` returns. That is exit status 0,
  and the temporary root is left in place (`Dispatch.Main`).

## Model

| member | source | states |
|---|---|---|
| IdMap.DecimalRoundTrip | src/main.rs:143 | The decimal text `format!` writes for an id parses back to that id |
| IdMap.MapLine | src/main.rs:143-149 | The text written for an id is one line with no newline, twice the id's digits plus three characters, ending in ` 1` (range 1) |
| IdMap.MapLineIsIdentity | src/main.rs:140-150 | The line `"<id> <id> 1"` written for an id reads back as exactly one extent mapping that id to itself with count 1 |
| Mirror.FaultStops | src/main.rs:110-113 | Once an entry panics, the later entries of the `for` loop change nothing |
| Mirror.StoreEntrySkipped | src/main.rs:83-86 | The host's `nix` entry is skipped before its metadata is read or anything is mounted, whatever its kind or stat error |
| Mirror.CreationFailurePolicy | src/main.rs:48-98 | Per kind, as an iff: a directory fails only if `create_dir` fails and the name is new; a file fails if `File::create` fails or the name holds a non-file; a symlink fails if `read_link` fails, `symlink` fails or the name exists; other kinds never fail and change nothing; a stat error is fatal |
| Mirror.EntryShape | src/main.rs:48-98 | One entry changes only its own node. It appends only a bind of its own host path at its own name, or a bind warning |
| Mirror.MirrorNeverTouchesStore | src/main.rs:81-113 | Mirroring never creates or binds anything at `nix`. It keeps existing mounts and events, and adds only binds of host entries at their own names, plus bind warnings |
| Mirror.StoreOnlyFromSupplied | src/main.rs:115-126 | After mirroring into the empty root, the store step succeeds iff `create_dir("nix")` and the store bind succeed. On success `nix` is a directory, and its only mount is the supplied store |
| Mirror.MirrorComplete | src/main.rs:81-113 | For distinct host names, every entry other than `nix` is reflected by kind: a directory or file node with its bind or bind warning, a symlink with the same target, nothing for other kinds. Every node of the new root names a listed entry |
| Mirror.BindFailuresNeverAbort | src/main.rs:22-37 | A failed bind of a mirrored entry is only a warning. The fault and nodes equal those of the run where every bind succeeds |
| Chroot.ChildStepOrder | src/main.rs:100-162 | A child that reaches `exec` logged, in order: ids read, `unshare`, only bind warnings while mirroring, `chroot`, `chdir /`, `setgroups` `deny` when writable, uid map, gid map, restore of the working directory, and `ExecFailed` when `exec` failed |
| Chroot.EnterWrites | src/main.rs:128-162 | From `chroot` onward the uid map and the gid map each receive one write, the identity line for the uid or gid |
| Chroot.IdentityMapsWrittenOnce | src/main.rs:103-150 | A child that reaches `exec` wrote `uid_map` and `gid_map` exactly once each, with the identity line for the ids read before `unshare`; each reads back as the single identity extent |
| Chroot.MirrorAllIgnoresSetgroups | src/main.rs:110-113 | Mirroring the listing has the same effect and the same fault whether or not the kernel refuses the setgroups open or write |
| Chroot.PrepareIgnoresSetgroups | src/main.rs:103-126 | The steps from reading the ids to the store mount give the same state and fault whether or not the setgroups open or write is refused |
| Chroot.EnterIgnoresSetgroups | src/main.rs:128-162 | From `chroot` to `exec`, a refused setgroups open or write changes neither the end nor the nodes and mounts; when setgroups goes through, nothing changes at all |
| Chroot.SetgroupsBestEffort | src/main.rs:100-162 | A refused open or write of `/proc/self/setgroups` changes neither how the child ends nor the nodes and mounts of the new root; when setgroups goes through, the two runs are identical |
| Chroot.ExecOnlyIntoCompleteRoot | src/main.rs:100-162 | A child that `exec`s runs the given command and arguments with `NIX_CONF_DIR=/nix/etc/nix`; `nix` is a directory bound only from the store; for distinct host names every other entry is reflected by kind |
| Chroot.Sandbox.constructor | src/main.rs:243-244 | The temporary root starts empty, with no mounts and no effects |
| Chroot.Sandbox.BindMountAt | src/main.rs:22-37 | `bind_mount`: a refused mount logs a warning; otherwise the recursive bind is appended |
| Chroot.Sandbox.BindMountDirectory | src/main.rs:48-57 | `bind_mount_directory` in place, equal to `Mirror.MirrorDirectory` |
| Chroot.Sandbox.BindMountFile | src/main.rs:59-65 | `bind_mount_file` in place, equal to `Mirror.MirrorFile` |
| Chroot.Sandbox.MirrorSymlinkEntry | src/main.rs:67-79 | `mirror_symlink` in place, equal to `Mirror.MirrorSymlink` |
| Chroot.Sandbox.BindMountDirentry | src/main.rs:81-98 | `bind_mount_direntry` in place, equal to `Mirror.MirrorEntry` |
| Chroot.Sandbox.MirrorHostRoot | src/main.rs:108-113 | The `for` loop over `read_dir("/")`, equal to `Mirror.MirrorAll` on the same entries |
| Chroot.Sandbox.MountStoreAt | src/main.rs:115-126 | The store step in place, equal to `Mirror.MountStore`; both failures are fatal |
| Chroot.Sandbox.WriteProcFile | src/main.rs:134-150 | A /proc write succeeds iff both open and write succeed, and is logged only then |
| Chroot.Sandbox.RunChroot | src/main.rs:100-162 | `run_chroot` step by step, equal to `Chroot.ChildRun`, which the lemmas above are about |
| Supervisor.WaitForChild | src/main.rs:166-198 | The loop with its mutable `exit_status` and `break`, then cleanup and exit; equal to `Supervisor.Supervise` |
| Supervisor.SignalsNeverEndLoop | src/main.rs:168-178 | `Signaled` results the supervisor survives (SIGSTOP, or a signal it can send itself without dying) never end the loop; the loop ends as it would without them |
| Supervisor.FatalSignalLeavesRoot | src/main.rs:174-178 | A child killed by a signal that is fatal to the supervisor too: the supervisor's last action is sending itself that signal, it ends killed by it, and the temporary root is never removed |
| Supervisor.ExitStatusPropagates | src/main.rs:179-182 | `Exited(n)` after any forwarded signals makes the supervisor exit with exactly n |
| Supervisor.AnomalyExitsWithOne | src/main.rs:183-190 | Any other status, or a `waitpid` error, makes the supervisor exit with 1 |
| Supervisor.StoppedChildEndsSupervision | src/main.rs:169-186 | A `Stopped` child ends supervision: cleanup, then exit 1, or a panic when removal fails |
| Supervisor.StopArmForwards | src/main.rs:170-173 | `Signaled(_, SIGSTOP)` stops the supervisor, sends SIGCONT to the child, and keeps waiting |
| Supervisor.LoopNeverRemoves | src/main.rs:168-192 | The loop itself never removes the temporary root |
| Supervisor.CleanupBeforeEveryExit | src/main.rs:192-197 | Every exit is preceded by exactly one removal of the root, as the last action. A failed removal panics instead of exiting. The root is removed iff the loop broke |
| Supervisor.ExitCodeFromChild | src/main.rs:166-197 | The exit code is 1 or the status of some normal exit of the child |
| Dispatch.MulticallName | src/main.rs:248-252 | There is a multicall name iff the file name of `args[0]` is one of the twelve commands, and it is then that file name |
| Dispatch.FileNameOfPath | src/main.rs:249 | The file name of `dir/name` and of `name` is `name`, for a plain name |
| Dispatch.MulticallFromPath | src/main.rs:228-252 | Run as `dir/name` or as `name` for any of the twelve commands, the program takes the multicall form under `name` |
| Dispatch.ImplicitNixdir | src/main.rs:201-223 | A non-empty `NIX_USER_CHROOT_DIR` is the store. The only exit is with 2 |
| Dispatch.Dispatch | src/main.rs:254-271 | A launched command vector is never empty; an exit is with 1 or 2 |
| Dispatch.MulticallDispatch | src/main.rs:254-258 | Multicall form: the command vector is the name followed by `args[1..]`; a non-empty env var is the store; a missing data directory exits with 2 |
| Dispatch.ExplicitDispatch | src/main.rs:260-270 | Explicit form: fewer than three arguments iff exit 1; otherwise the canonical `args[1]` is the store and `args[2..]` the command vector |
| Dispatch.UsageErrorAfterTempRoot | src/main.rs:243-264 | A usage error exits with 1 after the temporary root was created |
| Dispatch.Main | src/main.rs:225-280 | The temporary root exists iff `mkdtemp` succeeded, and it is made before dispatch. Exit codes are 0, 1 or 2. Exit 0 occurs iff dispatch launched and `fork` failed. The parent supervises iff dispatch launched and `fork` returned a child, and it does so with that child and the temporary root. The child runs in the temporary root iff dispatch launched and this is the child side of `fork` |
| Dispatch.ChildRunsCommandVector | src/main.rs:273-279 | The child runs the first element of the command vector with the rest as its arguments, in the temporary root, iff dispatch launched |

## Left out

- Kernel effects (`unshare`, `mount`, `chroot`, `set_current_dir`, `fork`, `kill`, `exec`, the /proc writes) are not performed. Their success or failure comes from the `Mirror.Kernel` and `Supervisor.Host` oracles or from parameters, and their effects are entries of the abstract state.
- `mkdtemp` (the `mkdtemp` module is not part of this model): only its result, a path or a failure, enters `Dispatch.Main`.
- The XDG base-directory lookup, the existence check of the data directory and `fs::canonicalize` are filesystem I/O. They enter as parameters: the data directory found, missing or unavailable, and the canonical path or a failure.
- `env::current_dir`, `getuid`, `getgid` and `read_dir("/")` enter as parameters: the working directory, the two ids, and the listing. A listing item is an error or a name with its metadata kind and link target.
- Signal delivery, job control and the interaction of the two processes are concurrency and OS behaviour. `waitpid` results are an input sequence. Which signals are fatal to the supervisor is an input (`Supervisor.Host`), not derived from signal dispositions. A SIGSTOP the supervisor sends itself is only an action, and being stopped and later continued is not modelled.
- Diagnostic text (`eprintln!`, `panic!` messages) is not modelled; a panic is a `Fault` or a `Panicked` outcome.
- `File::create` follows symlinks and truncates existing files. The model only records that the placeholder is a regular file, and that creating it over a non-file fails.
- `Path::to_str` is taken to succeed: paths are strings, and non-UTF-8 names are not modelled.
- The `to_str().unwrap()` in the message for a missing data directory could panic on a non-UTF-8 path. Not modelled, for the same reason.
- IdMap.ParseMap is a strict reader of the map format of user_namespaces(7): single spaces between the three fields, no leading blanks, no final newline. The kernel accepts more; the reader only has to accept the lines this program writes.
- Mirror.MirrorComplete: stated for listings with distinct names, as `read_dir` yields them. Duplicate names are not considered.
- Supervisor.WaitForChild: a finite sequence of `waitpid` results stands for the blocking loop. When the sequence runs out, the end is `StillWaiting`, not an unbounded wait.
