/** Abstract outcomes of the process-control system calls the shell core
    makes. The calls themselves are not modelled; each appears only as the
    value it returns (and the errno it leaves behind). */
module Os {

  /** A process id as the parent sees it after a successful fork. */
  type Pid = p: int | 0 < p witness 1

  /** The errno values the core distinguishes; every other code is `OtherErrno`. */
  datatype Errno = ECHILD | EINTR | OtherErrno

  /** fork() in the parent: a negative return, or the new child's pid. */
  datatype ForkResult = ForkFailed | Forked(child: Pid)

  /** A blocking waitpid(pid, NULL, 0): the collected pid, or -1 with errno. */
  datatype WaitResult = Collected(pid: Pid) | WaitFailed(errno: Errno)
}
