# Command-execution core of a small Unix shell, in Dafny

This project models `process_arglist` and its helpers from `myshell.c`. This
is the part of the shell that receives one tokenized command line and runs
it. It covers:

- **Classification.** A trailing `&` selects a background command. A `<` in
  the second-to-last slot selects input redirection from the last argument.
  Otherwise the first `|` splits a two-stage pipeline, and anything else is a
  simple command. The marker slot is overwritten with NULL in place, and that
  decides the argument vector each `execvp` reads (`classifier.dfy`,
  `arglist.dfy`).
- **The parent's calls and return value.** The parent makes `pipe`, `fork`,
  `close` and `waitpid` calls. It returns 0 at the first failing call and 1
  otherwise. A wait counts as failed only when it returns -1 with an errno
  other than `ECHILD` or `EINTR`. A background command is never waited for
  (`launcher.dfy`).
- **Each child's set-up before `execvp`.** The child resets signal
  dispositions by role, rewires its standard input or output, and closes
  descriptors that are no longer needed. Any failure ends only that child,
  with `exit(1)` (`child.dfy`).
- **The SIGCHLD handler.** It drains terminated children with non-blocking
  waits, and it restores errno when it returns (`reaper.dfy`).

System calls are not executed. Each one appears only as the outcome it
returns: an `Env` record for the parent, a `ChildStep -> bool` for a child,
and a sequence of `waitpid` answers for the handler. So every property holds
for every outcome of each call, under the assumptions listed in "Left out". `steps.dfy` defines the discipline that
all these processes share: carry out a fixed list of calls and stop at the
first failure.

## Model

In the table, "the pipe marker" is the argument `|`.


| member | source | states |
|---|---|---|
| Classifier.PipeIndex | myshell.c:12-26 | -1 exactly when no argument is the pipe marker. Otherwise the index of the first pipe marker, so the result lies in [-1, count) |
| Classifier.GetPipeIndex | myshell.c:13-26 | the left-to-right scan returns -1 exactly when there is no pipe marker, and otherwise the index of the first one |
| Classifier.Classify | myshell.c:97-220 | background iff the last argument is `"&"`. Redirect iff not background, count > 1 and the second-to-last is `"<"`. Pipeline iff neither of those holds and some pipe marker exists. Simple otherwise. A pipeline's left side contains no pipe marker |
| Classifier.ReassembleClassify | myshell.c:97-225 | nothing is lost. The argv plus `"&"`, or the argv plus `"<"` and the path, or left, the pipe marker and right, is the original command line |
| Classifier.ClassifyReassemble | myshell.c:97-220 | a mode is produced for its own command line iff it is canonical. Any argv followed by `"&"` is background. A redirect to any path other than `"&"` round-trips. A pipeline round-trips iff its left side has no pipe marker and its line ends in no suffix marker |
| Classifier.BackgroundWins | myshell.c:97-102 | a trailing `"&"` gives background mode whatever other markers appear, and the argv is everything before it |
| Classifier.RedirectBeatsPipe | myshell.c:137-142 | `argv + ["<", path]` is a redirect of argv from path even if argv holds a pipe marker (path not `"&"`) |
| Arglist.MarkerSlot | myshell.c:97-225 | the overwritten slot is -1 exactly in simple mode. It is slot count-1 (holding `"&"`) for background, slot count-2 (holding `"<"`) for redirect, and the first pipe marker's index for a pipeline |
| Arglist.Strip | myshell.c:97-225 | the vector keeps its length. Simple mode leaves it untouched. Otherwise the marker slot becomes NULL, it is the only NULL, and every other slot keeps its string |
| Arglist.ExecSeesModeArgv | myshell.c:124-349 | after nulling, `execvp` reads exactly the mode's argv: `[0, count-1)` for background, `[0, count-2)` for redirect (the path stays in slot count-1), `[0, i)` for the writer and `[i+1, count)` for the reader |
| Arglist.RemoveMarker | myshell.c:97-225 | the in-place edit of the pointer array leaves exactly the stripped vector and reports the classified mode |
| Steps.Attempted | myshell.c:104-432 | a process performs a prefix of its plan. Every call before the last one succeeded. It stops only at a failure or at the end, and it succeeds throughout iff the whole plan did |
| Launcher.ProcessArglist | myshell.c:89-433 | the return value is 0 or 1. The calls issued are the mode's plan up to the first failure, and 1 is returned iff every call of the plan succeeds |
| Launcher.LaunchBackground | myshell.c:104-135 | a background command issues only the fork, and returns 1 iff the fork succeeded |
| Launcher.LaunchForeground | myshell.c:144-432 | a redirected (lines 144-216) or simple (lines 386-432) command forks and then waits. It returns 0 on a failed fork, or on a wait error other than ECHILD or EINTR |
| Launcher.LaunchPipeline | myshell.c:228-381 | a pipeline issues pipe, fork, close(write), fork, close(read), wait, wait, stopping at the first failure. It returns 1 iff all of them succeed |
| Launcher.OpenPipeAndForkWriter | myshell.c:228-301 | a failed pipe, first fork or close of the write end returns 0 after exactly the calls made so far |
| Launcher.ForkReaderAndWait | myshell.c:303-381 | the calls after the write end is closed follow the plan's rest up to the first failure. A failed writer wait skips the reader wait |
| Launcher.WaitsExactlyForeground | myshell.c:132-432 | the parent waits for a forked child iff that child's role is a foreground one |
| Launcher.ChildrenInheritParentEnds | myshell.c:295-303 | at each fork, the pipe ends the parent holds are the ones the child inherits: the writer gets both ends, the reader only the read end |
| Launcher.PipelineSuccessClosesBoth | myshell.c:296-363 | a pipeline that returns 1 leaves the parent holding no pipe end |
| Launcher.PipeFailureHoldsNothing | myshell.c:228-233 | a failed `pipe` returns with nothing held |
| Launcher.FirstForkFailureLeavesBothEnds | myshell.c:235-241 | a failed writer fork returns with both pipe ends still open in the parent |
| Launcher.SecondForkFailureLeavesReadEnd | myshell.c:303-309 | a failed reader fork returns with the read end open and without waiting for the writer |
| ChildSetup.AtExec | myshell.c:112-421 | at `execvp`, SIGCHLD is default in every child. SIGINT is default in foreground children and stays as inherited in the background child. Stdin and stdout are wired by role and stderr stays the shell's. Of the descriptors the shell holds at fork and the child opens, only these three stay open, and no child holds both pipe ends |
| ChildSetup.RunChild | myshell.c:112-421 | a child ends with `exit(1)` iff some step of its plan fails. Otherwise it reaches `execvp` in the state `AtExec` describes |
| ChildSetup.ShellChildSignals | myshell.c:112-421 | children of the shell (SIGINT ignored, SIGCHLD reaped) exec with: background = (SIGINT ignored, SIGCHLD default); every foreground role = (both default) |
| Reaper.HandleSigchld | myshell.c:29-58 | the handler waits until the first answer that is "none ready", ECHILD or another error. It continues past collected children and EINTR. It exits the shell with status 1 on other errors, and otherwise returns with errno as it was at entry |

## Left out

- The system calls themselves (`fork`, `execvp`, `dup2`, `open`, `close`, `pipe`, `waitpid`, `signal`) are OS effects. They appear only as abstract outcomes. Bytes through the pipe and file contents are not modelled.
- Asynchronous delivery of SIGCHLD, and its interleaving with the parent's own `waitpid`, is concurrency. Only the handler's loop decision is modelled. The "reaper got there first" case appears only as the parent tolerating `ECHILD`.
- `prepare` and `finalize` (myshell.c:60-87, 435-438) are start-up plumbing and are not modelled as operations. `ShellDispositions` is the state `prepare` installs: SIGINT ignored and SIGCHLD handled by the reaper. Note that `prepare` returns 0 for success, the opposite of `process_arglist`.
- `perror` diagnostics and the exit status of spawned commands are not modelled. The parent never reads either.
- `count == 0` is excluded by the `0 < |args|` requirements, because the source reads `arglist[count - 1]` without a check.
- Some inputs hand `execvp` an empty argv: a lone `"&"`, `["<", path]`, and a pipe marker at index 0 or at index count-1. The source does not guard against these. They are classified as the source classifies them, and nothing is claimed about what `execvp` then does.
- Reaper.HandleSigchld requires that some answer in the sequence ends the loop. This stands for the kernel's eventual "none ready" or ECHILD. An unbounded run of `EINTR` answers or collected children is not modelled.
- A failed `close` is treated by `Launcher.ParentPipeEnds` as leaving the end open. POSIX leaves the descriptor's state unspecified in that case. No return-value or success-path property depends on this choice. `Launcher.EndsAlongPipeline` and the lemmas built on it do use it for the ends held after a failed close.
- The pid a wait returns is not compared with the pid that was forked. The parent never inspects it. A wait that fails with `EINTR` is not retried: the call still returns 1, and the child is left for the reaper.
- `open` runs in the redirect child. A failure there ends only that child with `exit(1)`, and the parent still returns 1 once its wait is tolerated.
- Every early `return 0` of a pipeline leaves cleanup undone, and the model states this rather than hiding it. The two fork-failure paths return with pipe ends still open (`Launcher.FirstForkFailureLeavesBothEnds`, `Launcher.SecondForkFailureLeavesReadEnd`), and the second one does not wait for the writer. A failed close of the write end (myshell.c:296-301) returns holding the read end without waiting for the writer. A failed close of the read end (myshell.c:358-363) returns without waiting for either child. A failed writer wait (myshell.c:366-371) returns without waiting for the reader. `Launcher.ForkReaderAndWait` and `Launcher.OpenPipeAndForkWriter` give the calls made on each of these paths, and `Launcher.EndsAlongPipeline` gives the ends held.
- ChildSetup.AtExec assumes descriptors 0, 1 and 2 are open in the shell at fork, so `open` and `pipe` return other numbers. The source does not check this. If fd 0 is closed, `open` (myshell.c:173) returns 0, `dup2(0, 0)` (myshell.c:182) does nothing, and `close` (myshell.c:191) then closes stdin, so the redirected command runs with no standard input. Likewise, if fds 0 and 1 are closed, `pipe` (myshell.c:228) returns {0, 1}, and the writer's `close(pipe_fd[1])` (myshell.c:280) closes its stdout. AtExec's descriptor facts hold only under this assumption.
- Descriptors the shell itself inherited beyond stdin, stdout and stderr are not modelled. No child closes them, so they stay open across `execvp`.
