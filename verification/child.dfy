/** What each forked child does between fork and execvp: it resets signal
    dispositions according to its role, rewires its standard descriptors,
    closes the descriptors that became redundant, and replaces its image.
    Any failing step ends the child with exit(1); nothing propagates to the
    parent. */
module ChildSetup {
  import opened Steps

  datatype Signal = SIGINT | SIGCHLD

  datatype Disposition = Ignored | DefaultAction | ReaperHandler

  datatype Dispositions = Dispositions(interrupt: Disposition, childExit: Disposition)

  /** The shell's own dispositions once `prepare` has run: SIGINT ignored and
      SIGCHLD routed to the reaper. Every child starts from these. */
  const ShellDispositions: Dispositions := Dispositions(Ignored, ReaperHandler)

  /** The part each spawned process plays. */
  datatype Role =
    | ForegroundSimple
    | ForegroundRedirect
    | PipelineWriter
    | PipelineReader
    | BackgroundJob

  predicate IsForeground(role: Role)
  {
    !role.BackgroundJob?
  }

  /** Descriptor numbers a child may hold: the three standard descriptors,
      the descriptor `open` returns for the input file, and the two ends of
      the pipe as numbered in `pipe_fd`. */
  datatype Fd = StdIn | StdOut | StdErr | InputFd | PipeReadFd | PipeWriteFd

  /** What a descriptor refers to. */
  datatype Channel = ShellInput | ShellOutput | ShellError | InputFile | PipeReadEnd | PipeWriteEnd

  datatype ChildStep =
    | ResetToDefault(sig: Signal)
    | OpenInput
    | Redirect(from: Fd, onto: Fd)
    | Close(fd: Fd)
    | Exec

  /** The steps each child performs, in source order. */
  function ChildPlan(role: Role): seq<ChildStep>
  {
    var resets := [ResetToDefault(SIGINT), ResetToDefault(SIGCHLD)];
    match role
    case BackgroundJob => [ResetToDefault(SIGCHLD), Exec]
    case ForegroundSimple => resets + [Exec]
    case ForegroundRedirect =>
      resets + [OpenInput, Redirect(InputFd, StdIn), Close(InputFd), Exec]
    case PipelineWriter =>
      resets + [Close(PipeReadFd), Redirect(PipeWriteFd, StdOut), Close(PipeWriteFd), Exec]
    case PipelineReader =>
      resets + [Redirect(PipeReadFd, StdIn), Close(PipeReadFd), Exec]
  }

  /** The descriptors of the shell's that a child holds right after fork:
      the three standard descriptors, which no child touches except by
      redirecting onto stdin or stdout, and the pipe ends. The writer is forked
      while the parent still holds both pipe ends; the reader is forked after
      the parent has closed its write end, so it never receives one. */
  function InheritedFds(role: Role): map<Fd, Channel>
  {
    var std := map[StdIn := ShellInput, StdOut := ShellOutput, StdErr := ShellError];
    match role
    case PipelineWriter => std[PipeReadFd := PipeReadEnd][PipeWriteFd := PipeWriteEnd]
    case PipelineReader => std[PipeReadFd := PipeReadEnd]
    case _ => std
  }

  /** Where a role's standard input must come from when its image starts. */
  function StdinSource(role: Role): Channel
  {
    match role
    case ForegroundRedirect => InputFile
    case PipelineReader => PipeReadEnd
    case _ => ShellInput
  }

  /** Where a role's standard output must go when its image starts. */
  function StdoutSink(role: Role): Channel
  {
    if role.PipelineWriter? then PipeWriteEnd else ShellOutput
  }

  datatype ChildState = ChildState(signals: Dispositions, fds: map<Fd, Channel>)

  /** The effect of one successful step. */
  function Apply(s: ChildState, step: ChildStep): ChildState
  {
    match step
    case ResetToDefault(SIGINT) => s.(signals := s.signals.(interrupt := DefaultAction))
    case ResetToDefault(SIGCHLD) => s.(signals := s.signals.(childExit := DefaultAction))
    case OpenInput => s.(fds := s.fds[InputFd := InputFile])
    case Redirect(from, onto) =>
      if from in s.fds then s.(fds := s.fds[onto := s.fds[from]]) else s
    case Close(fd) => s.(fds := s.fds - {fd})
    case Exec => s
  }

  /** The state reached from `s` when every step of `steps[k..]` succeeds. */
  function ApplyFrom(s: ChildState, steps: seq<ChildStep>, k: nat): ChildState
    requires k <= |steps|
    decreases |steps| - k
  {
    if k == |steps| then s else ApplyFrom(Apply(s, steps[k]), steps, k + 1)
  }

  /** The state in which a child reaches execvp when every earlier step
      succeeded: SIGCHLD is back to default in every role, SIGINT is back to
      default in foreground roles only, stdin and stdout are wired as the role
      needs, stderr is still the shell's, every descriptor the child opened or
      inherited from the pipe is closed, and no child holds both ends of the
      pipe. */
  function AtExec(role: Role, inherited: Dispositions): (s: ChildState)
    ensures s.signals.childExit == DefaultAction
    ensures s.signals.interrupt == (if IsForeground(role) then DefaultAction else inherited.interrupt)
    ensures s.fds.Keys == {StdIn, StdOut, StdErr}
    ensures s.fds[StdIn] == StdinSource(role) && s.fds[StdOut] == StdoutSink(role)
    ensures s.fds[StdErr] == ShellError
    ensures !(PipeReadEnd in s.fds.Values && PipeWriteEnd in s.fds.Values)
  {
    var s := ApplyFrom(ChildState(inherited, InheritedFds(role)), ChildPlan(role), 0);
    AtExecFacts(role, inherited);
    s
  }

  /** Walks each role's plan one step at a time. */
  lemma AtExecFacts(role: Role, inherited: Dispositions)
    ensures var s := ApplyFrom(ChildState(inherited, InheritedFds(role)), ChildPlan(role), 0);
      && s.signals.childExit == DefaultAction
      && s.signals.interrupt == (if IsForeground(role) then DefaultAction else inherited.interrupt)
      && s.fds.Keys == {StdIn, StdOut, StdErr}
      && s.fds[StdIn] == StdinSource(role) && s.fds[StdOut] == StdoutSink(role)
      && s.fds[StdErr] == ShellError
  {
    var p := ChildPlan(role);
    var s0 := ChildState(inherited, InheritedFds(role));
    var s1 := Apply(s0, p[0]);
    var s2 := Apply(s1, p[1]);
    Unfold(s0, p, 0);
    Unfold(s1, p, 1);
    if 2 < |p| {
      var s3 := Apply(s2, p[2]);
      Unfold(s2, p, 2);
      if 3 < |p| {
        var s4 := Apply(s3, p[3]);
        Unfold(s3, p, 3);
        if 4 < |p| {
          var s5 := Apply(s4, p[4]);
          Unfold(s4, p, 4);
          if 5 < |p| {
            Unfold(s5, p, 5);
          }
        }
      }
    }
  }

  /** One step of `ApplyFrom`. */
  lemma Unfold(s: ChildState, steps: seq<ChildStep>, k: nat)
    requires k < |steps|
    ensures ApplyFrom(s, steps, k) == ApplyFrom(Apply(s, steps[k]), steps, k + 1)
  {
  }

  /** How a child ends up. */
  datatype ChildFate = Exited(status: int) | Replaced(state: ChildState)

  /** A child runs its plan, stopping with exit(1) at the first failing step
      (a failed signal reset, open, dup2, close, or execvp). */
  function RunChild(role: Role, inherited: Dispositions, ok: ChildStep -> bool): (fate: ChildFate)
    ensures fate.Exited? <==> !AllOk(ChildPlan(role), ok)
    ensures fate.Exited? ==> fate.status == 1
    ensures fate.Replaced? ==> fate.state == AtExec(role, inherited)
  {
    var done := Attempted(ChildPlan(role), ok);
    if AllOk(done, ok) then Replaced(AtExec(role, inherited)) else Exited(1)
  }

  /** The children of the shell: a background job keeps ignoring SIGINT, so
      an interrupt aimed at the shell does not kill it, while every
      foreground child dies on SIGINT by default. No child keeps the reaper. */
  lemma ShellChildSignals(role: Role)
    ensures AtExec(role, ShellDispositions).signals ==
      if IsForeground(role) then Dispositions(DefaultAction, DefaultAction)
      else Dispositions(Ignored, DefaultAction)
  {
  }
}
