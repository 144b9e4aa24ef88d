/** The SIGCHLD handler `handle_sigchld`: it drains every terminated child
    with non-blocking waits, stops when none is ready or no child is left,
    retries after an interrupted wait, kills the whole shell on any other
    error, and leaves errno as it found it. The kernel's answers are given
    as a sequence, one per wait. */
module Reaper {
  import opened Os

  /** One waitpid(-1, NULL, WNOHANG): its return value and errno afterwards. */
  datatype NoHangWait = NoHangWait(ret: int, errno: Errno)

  /** waitpid returns -1, 0, or the pid of a collected child. */
  predicate IsWaitpidReturn(w: NoHangWait)
  {
    -1 <= w.ret
  }

  /** What a wait means. */
  datatype ReapResult = Reaped(pid: Pid) | NoneExited | ReapFailed(errno: Errno)

  function Meaning(w: NoHangWait): ReapResult
    requires IsWaitpidReturn(w)
  {
    if w.ret == 0 then NoneExited
    else if w.ret == -1 then ReapFailed(w.errno)
    else Reaped(w.ret)
  }

  datatype Decision = KeepReaping | StopReaping | Fatal

  /** The handler's policy: a collected child or an interrupted wait means
      there may be more to collect; "none ready" and ECHILD ("no children at
      all") are the normal ways to finish; every other error is fatal. */
  function Decide(r: ReapResult): Decision
  {
    match r
    case Reaped(_) => KeepReaping
    case NoneExited => StopReaping
    case ReapFailed(ECHILD) => StopReaping
    case ReapFailed(EINTR) => KeepReaping
    case ReapFailed(OtherErrno) => Fatal
  }

  /** How the handler ends: it returns with errno set, or the shell exits. */
  datatype HandlerEnd = Returned(errno: Errno) | ShellExit(status: int)

  /** The handler's loop, condition for condition. `waits` stands for the
      kernel's successive answers; it is required to contain one that ends
      the loop, which a kernel with finitely many children eventually gives.
      `used` is the number of waits performed. */
  method HandleSigchld(waits: seq<NoHangWait>, entryErrno: Errno) returns (end: HandlerEnd, used: nat)
    requires forall j :: 0 <= j < |waits| ==> IsWaitpidReturn(waits[j])
    requires exists k :: 0 <= k < |waits| && Decide(Meaning(waits[k])) != KeepReaping
    ensures 0 < used <= |waits|
    ensures forall j :: 0 <= j < used - 1 ==> Decide(Meaning(waits[j])) == KeepReaping
    ensures Decide(Meaning(waits[used - 1])) != KeepReaping
    ensures end.Returned? <==> Decide(Meaning(waits[used - 1])) == StopReaping
    ensures end.Returned? ==> end.errno == entryErrno
    ensures end.ShellExit? ==> end.status == 1
  {
    var errno := entryErrno;
    var savedErrno := errno;
    var i := 0;
    while true
      invariant 0 <= i < |waits|
      invariant forall j :: 0 <= j < i ==> Decide(Meaning(waits[j])) == KeepReaping
      invariant exists k :: i <= k < |waits| && Decide(Meaning(waits[k])) != KeepReaping
      decreases |waits| - i
    {
      var waitRes := waits[i].ret;
      errno := waits[i].errno;
      if waitRes == 0 {
        break;
      }
      if waitRes == -1 && errno == ECHILD {
        break;
      }
      if waitRes == -1 && errno != EINTR {
        return ShellExit(1), i + 1;
      }
      i := i + 1;
    }
    errno := savedErrno;
    return Returned(errno), i + 1;
  }
}
