/** The parent side of src/main.rs: `wait_for_child`. The results of
    `waitpid` are an input sequence; signals sent and the removal of the
    temporary root are recorded as actions. */
module Supervisor {

  /** Linux signal numbers. */
  type Signal = nat

  const SIGCONT: Signal := 18
  const SIGSTOP: Signal := 19

  /** The statuses `waitpid(child, WUNTRACED)` reports. */
  datatype WaitStatus =
    | Exited(pid: int, status: int)
    | Signaled(pid: int, signal: Signal, coreDumped: bool)
    | Stopped(pid: int, signal: Signal)
    | Continued(pid: int)
    | StillAlive
    | PtraceEvent(pid: int, signal: Signal, event: int)
    | PtraceSyscall(pid: int)

  /** One call of `waitpid`: a status, or an error. */
  datatype Wait = Reaped(status: WaitStatus) | WaitFailed

  /** What the supervisor does to the outside world. */
  datatype Action =
    | KillSelf(signal: Signal)
    | KillChild(pid: int, signal: Signal)
    | RemoveTree(path: string)

  /** The answers of the OS other than `waitpid`: which signals the
      supervisor cannot send to itself, which of those it can send end it on
      delivery (their disposition is to terminate, as for SIGTERM or SIGKILL),
      and whether removing the root fails. */
  datatype Host = Host(killSelfRefused: set<Signal>, fatalToSelf: set<Signal>, removeFails: bool)

  /** How the loop stops: a `break` with the exit status, the input running
      out while the loop still waits, a panic when a signal cannot be
      forwarded, or the supervisor killed by the signal it sent itself. */
  datatype LoopEnd = Broke(status: int) | Blocked | KillPanic | KilledBy(signal: Signal)

  datatype LoopResult = LoopResult(end: LoopEnd, actions: seq<Action>)

  /** How the supervisor ends: still waiting, `process::exit(code)`, a panic,
      or killed by a signal. */
  datatype End = StillWaiting | Exit(code: int) | Panicked | Killed(signal: Signal)

  datatype Supervision = Supervision(end: End, actions: seq<Action>)

  /** The `loop` of `wait_for_child`, over the results of successive
      `waitpid` calls. Only `Signaled` continues it; the stop arm ignores
      failures of its two `kill`s, the other signal arm panics on one, and a
      signal fatal to the supervisor ends it inside that `kill`. */
  function Loop(waits: seq<Wait>, h: Host): LoopResult
    decreases |waits|
  {
    if waits == [] then LoopResult(Blocked, [])
    else
      match waits[0]
      case Reaped(Signaled(child, sig, _)) =>
        if sig == SIGSTOP then
          var rest := Loop(waits[1..], h);
          LoopResult(rest.end, [KillSelf(SIGSTOP), KillChild(child, SIGCONT)] + rest.actions)
        else if sig in h.killSelfRefused then LoopResult(KillPanic, [KillSelf(sig)])
        else if sig in h.fatalToSelf then LoopResult(KilledBy(sig), [KillSelf(sig)])
        else
          var rest := Loop(waits[1..], h);
          LoopResult(rest.end, [KillSelf(sig)] + rest.actions)
      case Reaped(Exited(_, status)) => LoopResult(Broke(status), [])
      case _ => LoopResult(Broke(1), [])
  }

  /** `wait_for_child`: the loop, then on every `break` the removal of the
      temporary root (a panic if it fails) and the exit with the status. */
  function Supervise(rootdir: string, waits: seq<Wait>, h: Host): Supervision
  {
    var l := Loop(waits, h);
    match l.end
    case Blocked => Supervision(StillWaiting, l.actions)
    case KillPanic => Supervision(Panicked, l.actions)
    case KilledBy(sig) => Supervision(Killed(sig), l.actions)
    case Broke(status) =>
      if h.removeFails then Supervision(Panicked, l.actions + [RemoveTree(rootdir)])
      else Supervision(Exit(status), l.actions + [RemoveTree(rootdir)])
  }

  /** `wait_for_child`, with its mutable `exit_status`. */
  method WaitForChild(rootdir: string, waits: seq<Wait>, h: Host) returns (end: End, actions: seq<Action>)
    ensures Supervision(end, actions) == Supervise(rootdir, waits, h)
  {
    var exitStatus := 1;
    var i := 0;
    var broke := false;
    actions := [];
    while i < |waits| && !broke
      invariant 0 <= i <= |waits|
      invariant !broke ==> LoopResult(Loop(waits[i..], h).end, actions + Loop(waits[i..], h).actions) == Loop(waits, h)
      invariant !broke ==> exitStatus == 1
      invariant broke ==> Loop(waits, h) == LoopResult(Broke(exitStatus), actions)
      decreases |waits| - i, !broke
    {
      assert waits[i..][0] == waits[i] && waits[i..][1..] == waits[i + 1..];
      assert actions + [] == actions;
      match waits[i]
      case Reaped(Signaled(child, sig, _)) =>
        if sig == SIGSTOP {
          actions := actions + [KillSelf(SIGSTOP), KillChild(child, SIGCONT)];
        } else {
          actions := actions + [KillSelf(sig)];
          if sig in h.killSelfRefused {
            return Panicked, actions;
          }
          if sig in h.fatalToSelf {
            return Killed(sig), actions;
          }
        }
        i := i + 1;
      case Reaped(Exited(_, status)) =>
        assert Loop(waits[i..], h) == LoopResult(Broke(status), []);
        exitStatus := status;
        broke := true;
      case _ =>
        assert Loop(waits[i..], h) == LoopResult(Broke(1), []);
        broke := true;
    }
    if !broke {
      return StillWaiting, actions;
    }
    actions := actions + [RemoveTree(rootdir)];
    if h.removeFails {
      return Panicked, actions;
    }
    end := Exit(exitStatus);
  }

  // ---------------------------------------------------------------------
  // Properties of the supervisor

  /** A `waitpid` result that the loop passes over: a child killed by
      SIGSTOP, or by a signal the supervisor can send itself and survives. */
  predicate Forwarded(w: Wait, h: Host)
  {
    w.Reaped? && w.status.Signaled? &&
    (w.status.signal == SIGSTOP || (w.status.signal !in h.killSelfRefused && w.status.signal !in h.fatalToSelf))
  }

  /** The `Signaled` arms have no `break`: after any run of results the
      supervisor survives, the loop ends exactly as it would without them. */
  lemma {:induction false} SignalsNeverEndLoop(pre: seq<Wait>, rest: seq<Wait>, h: Host)
    requires forall j :: 0 <= j < |pre| ==> Forwarded(pre[j], h)
    ensures Loop(pre + rest, h).end == Loop(rest, h).end
    decreases |pre|
  {
    if pre != [] {
      assert (pre + rest)[0] == pre[0];
      assert (pre + rest)[1..] == pre[1..] + rest;
      SignalsNeverEndLoop(pre[1..], rest, h);
    } else {
      assert pre + rest == rest;
    }
  }

  /** Exit status propagation: when the child exits normally with `n` after
      any number of forwarded signals, the supervisor exits with exactly `n`. */
  lemma ExitStatusPropagates(rootdir: string, pre: seq<Wait>, pid: int, n: int, rest: seq<Wait>, h: Host)
    requires forall j :: 0 <= j < |pre| ==> Forwarded(pre[j], h)
    requires !h.removeFails
    ensures Supervise(rootdir, pre + [Reaped(Exited(pid, n))] + rest, h).end == Exit(n)
  {
    assert pre + [Reaped(Exited(pid, n))] + rest == pre + ([Reaped(Exited(pid, n))] + rest);
    SignalsNeverEndLoop(pre, [Reaped(Exited(pid, n))] + rest, h);
  }

  /** Any other result after the forwarded signals, a `waitpid` error included,
      ends the supervisor with the fallback status 1. */
  lemma AnomalyExitsWithOne(rootdir: string, pre: seq<Wait>, w: Wait, rest: seq<Wait>, h: Host)
    requires forall j :: 0 <= j < |pre| ==> Forwarded(pre[j], h)
    requires w.WaitFailed? || (!w.status.Signaled? && !w.status.Exited?)
    requires !h.removeFails
    ensures Supervise(rootdir, pre + [w] + rest, h).end == Exit(1)
  {
    assert pre + [w] + rest == pre + ([w] + rest);
    SignalsNeverEndLoop(pre, [w] + rest, h);
  }

  /** A child killed by a signal that is fatal to the supervisor too: the
      supervisor sends it to itself and dies by it before any cleanup, so
      the temporary root is left behind and `process::exit` is never reached. */
  lemma FatalSignalLeavesRoot(rootdir: string, pre: seq<Wait>, pid: int, sig: Signal, core: bool,
                              rest: seq<Wait>, h: Host)
    requires forall j :: 0 <= j < |pre| ==> Forwarded(pre[j], h)
    requires sig != SIGSTOP && sig !in h.killSelfRefused && sig in h.fatalToSelf
    ensures var s := Supervise(rootdir, pre + [Reaped(Signaled(pid, sig, core))] + rest, h);
      s.end == Killed(sig) && RemoveTree(rootdir) !in s.actions &&
      |s.actions| >= 1 && s.actions[|s.actions| - 1] == KillSelf(sig)
  {
    var w := Reaped(Signaled(pid, sig, core));
    assert pre + [w] + rest == pre + ([w] + rest);
    SignalsNeverEndLoop(pre, [w] + rest, h);
    LoopNeverRemoves(pre + [w] + rest, h);
    ForwardedThenFatal(pre, w, rest, h);
  }

  /** The actions of a run of forwarded results followed by a fatal signal
      end with that signal sent to the supervisor itself. */
  lemma {:induction false} ForwardedThenFatal(pre: seq<Wait>, w: Wait, rest: seq<Wait>, h: Host)
    requires forall j :: 0 <= j < |pre| ==> Forwarded(pre[j], h)
    requires w.Reaped? && w.status.Signaled? && w.status.signal != SIGSTOP
    requires w.status.signal !in h.killSelfRefused && w.status.signal in h.fatalToSelf
    ensures var l := Loop(pre + ([w] + rest), h);
      |l.actions| >= 1 && l.actions[|l.actions| - 1] == KillSelf(w.status.signal)
    decreases |pre|
  {
    if pre == [] {
      assert pre + ([w] + rest) == [w] + rest;
      assert ([w] + rest)[0] == w;
    } else {
      assert (pre + ([w] + rest))[0] == pre[0];
      assert (pre + ([w] + rest))[1..] == pre[1..] + ([w] + rest);
      ForwardedThenFatal(pre[1..], w, rest, h);
    }
  }

  /** As written, a child stopped by SIGSTOP is reported as `Stopped`, which
      the loop treats as unexpected: the supervisor removes the root and exits
      with 1 instead of stopping itself. */
  lemma StoppedChildEndsSupervision(rootdir: string, pid: int, rest: seq<Wait>, h: Host)
    ensures Supervise(rootdir, [Reaped(Stopped(pid, SIGSTOP))] + rest, h)
         == Supervision(if h.removeFails then Panicked else Exit(1), [RemoveTree(rootdir)])
  {
  }

  /** Job-control forwarding as written for `Signaled(_, SIGSTOP)`: stop self,
      then continue the child, and keep waiting. */
  lemma StopArmForwards(child: int, core: bool, rest: seq<Wait>, h: Host)
    ensures Loop([Reaped(Signaled(child, SIGSTOP, core))] + rest, h)
         == LoopResult(Loop(rest, h).end, [KillSelf(SIGSTOP), KillChild(child, SIGCONT)] + Loop(rest, h).actions)
  {
    assert ([Reaped(Signaled(child, SIGSTOP, core))] + rest)[1..] == rest;
  }

  /** The loop itself never removes anything. */
  lemma {:induction false} LoopNeverRemoves(waits: seq<Wait>, h: Host)
    ensures forall j :: 0 <= j < |Loop(waits, h).actions| ==> !Loop(waits, h).actions[j].RemoveTree?
    decreases |waits|
  {
    if waits != [] {
      LoopNeverRemoves(waits[1..], h);
    }
  }

  /** Cleanup: every exit of the supervisor is preceded by exactly one
      removal of the temporary root, as its last action; a failed removal
      panics instead of exiting; while still waiting, nothing is removed. */
  lemma CleanupBeforeEveryExit(rootdir: string, waits: seq<Wait>, h: Host)
    ensures var s := Supervise(rootdir, waits, h);
      (s.end.Exit? ==> !h.removeFails && |s.actions| >= 1 && s.actions[|s.actions| - 1] == RemoveTree(rootdir)) &&
      (s.end.Exit? || s.end.StillWaiting? ==> forall j :: 0 <= j < |s.actions| - 1 ==> !s.actions[j].RemoveTree?) &&
      (s.end.StillWaiting? ==> |s.actions| == 0 || !s.actions[|s.actions| - 1].RemoveTree?) &&
      (Loop(waits, h).end.Broke? <==> RemoveTree(rootdir) in s.actions)
  {
    LoopNeverRemoves(waits, h);
    var l := Loop(waits, h);
    var s := Supervise(rootdir, waits, h);
    if l.end.Broke? {
      assert s.actions[|s.actions| - 1] == RemoveTree(rootdir);
      forall j | 0 <= j < |s.actions| - 1 ensures !s.actions[j].RemoveTree? {
        assert s.actions[j] == l.actions[j];
      }
    } else {
      assert s.actions == l.actions;
    }
  }

  /** The exit code is the fallback 1 or the status of some normal exit of
      the child. */
  lemma {:induction false} ExitCodeFromChild(rootdir: string, waits: seq<Wait>, h: Host)
    ensures Supervise(rootdir, waits, h).end.Exit? ==>
      var c := Supervise(rootdir, waits, h).end.code;
      c == 1 || exists j :: 0 <= j < |waits| && waits[j].Reaped? && waits[j].status.Exited? && waits[j].status.status == c
    decreases |waits|
  {
    if waits != [] {
      ExitCodeFromChild(rootdir, waits[1..], h);
      var s := Supervise(rootdir, waits, h);
      if s.end.Exit? && s.end.code != 1 && !(waits[0].Reaped? && waits[0].status.Exited?) {
        var c := s.end.code;
        var j :| 0 <= j < |waits[1..]| && waits[1..][j].Reaped? && waits[1..][j].status.Exited? && waits[1..][j].status.status == c;
        assert waits[j + 1] == waits[1..][j];
      }
    }
  }
}
