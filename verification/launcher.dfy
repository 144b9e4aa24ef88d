/** The parent side of `process_arglist`: the system calls the shell makes
    for each mode and the value it returns — 1 when the command was launched
    (and, in the foreground, waited for), 0 when a pipe, fork, close or wait
    failed. Every call's outcome comes from an `Env`, so the policy can be
    stated for all possible kernel behaviours at once. */
module Launcher {
  import opened Os
  import opened Steps
  import opened Classifier
  import opened ChildSetup

  /** Which of the (at most two) children a fork or wait concerns. */
  datatype Stage = First | Second

  /** A system call made by the parent. */
  datatype Call =
    | OpenPipe
    | ForkChild(stage: Stage)
    | CloseWriteEnd
    | CloseReadEnd
    | WaitChild(stage: Stage)

  /** What each of the parent's system calls returns during one command. */
  datatype Env = Env(
    pipeOk: bool,
    fork1: ForkResult,
    closeWriteOk: bool,
    fork2: ForkResult,
    closeReadOk: bool,
    wait1: WaitResult,
    wait2: WaitResult)

  function ForkOf(env: Env, stage: Stage): ForkResult
  {
    if stage.First? then env.fork1 else env.fork2
  }

  function WaitOf(env: Env, stage: Stage): WaitResult
  {
    if stage.First? then env.wait1 else env.wait2
  }

  /** A blocking wait fails the command only when it returns -1 with an errno
      other than ECHILD (the reaper got there first) or EINTR. */
  predicate WaitTolerated(w: WaitResult)
  {
    w.Collected? || w.errno == ECHILD || w.errno == EINTR
  }

  /** Whether the parent carries on after `c`. */
  predicate CallOk(env: Env, c: Call)
  {
    match c
    case OpenPipe => env.pipeOk
    case ForkChild(stage) => ForkOf(env, stage).Forked?
    case CloseWriteEnd => env.closeWriteOk
    case CloseReadEnd => env.closeReadOk
    case WaitChild(stage) => WaitTolerated(WaitOf(env, stage))
  }

  function Ok(env: Env): Call -> bool
  {
    c => CallOk(env, c)
  }

  const BackgroundPlan: seq<Call> := [ForkChild(First)]
  const ForegroundPlan: seq<Call> := [ForkChild(First), WaitChild(First)]
  const PipelinePlan: seq<Call> :=
    [OpenPipe, ForkChild(First), CloseWriteEnd, ForkChild(Second), CloseReadEnd,
     WaitChild(First), WaitChild(Second)]

  /** The calls each mode makes when nothing fails. A background command is
      forked and never waited for; a pipeline closes the write end before
      forking the reader and waits for the writer first. */
  function Plan(m: Mode): seq<Call>
  {
    match m
    case Background(_) => BackgroundPlan
    case InputRedirect(_, _) => ForegroundPlan
    case Simple(_) => ForegroundPlan
    case Pipeline(_, _) => PipelinePlan
  }

  /** The role of the child forked at `stage` in mode `m`. */
  function RoleOf(m: Mode, stage: Stage): Role
    requires ForkChild(stage) in Plan(m)
  {
    match m
    case Background(_) => BackgroundJob
    case InputRedirect(_, _) => ForegroundRedirect
    case Simple(_) => ForegroundSimple
    case Pipeline(_, _) => if stage.First? then PipelineWriter else PipelineReader
  }

  /** The parent's control flow, branch for branch: it classifies the
      command, issues its calls in order, returns 0 at the first failure and
      1 otherwise. `calls` lists the calls it issued. */
  method ProcessArglist(args: seq<string>, env: Env) returns (status: int, calls: seq<Call>)
    requires 0 < |args|
    ensures status == 0 || status == 1
    ensures calls == Attempted(Plan(Classify(args)), Ok(env))
    ensures status == 1 <==> AllOk(Plan(Classify(args)), Ok(env))
  {
    var mode := Classify(args);
    if mode.Background? {
      status, calls := LaunchBackground(env);
    } else if mode.InputRedirect? || mode.Simple? {
      status, calls := LaunchForeground(env);
    } else {
      status, calls := LaunchPipeline(env);
    }
  }

  /** Background: fork, and return 1 without waiting. */
  method LaunchBackground(env: Env) returns (status: int, calls: seq<Call>)
    ensures status == 0 || status == 1
    ensures calls == Attempted(BackgroundPlan, Ok(env))
    ensures status == 1 <==> AllOk(BackgroundPlan, Ok(env))
  {
    calls := [ForkChild(First)];
    if env.fork1.ForkFailed? {
      return 0, calls;
    }
    return 1, calls;
  }

  /** Simple and input-redirect commands: fork, then wait for the child. */
  method LaunchForeground(env: Env) returns (status: int, calls: seq<Call>)
    ensures status == 0 || status == 1
    ensures calls == Attempted(ForegroundPlan, Ok(env))
    ensures status == 1 <==> AllOk(ForegroundPlan, Ok(env))
  {
    calls := [ForkChild(First)];
    if env.fork1.ForkFailed? {
      StopAt(ForegroundPlan, Ok(env), 0);
      return 0, calls;
    }
    calls := calls + [WaitChild(First)];
    StopAt(ForegroundPlan, Ok(env), 1);
    if !WaitTolerated(env.wait1) {
      return 0, calls;
    }
    return 1, calls;
  }

  /** Pipeline: open the pipe, fork the writer, close the write end, fork the
      reader, close the read end, then wait for the writer and the reader. */
  method LaunchPipeline(env: Env) returns (status: int, calls: seq<Call>)
    ensures status == 0 || status == 1
    ensures calls == Attempted(PipelinePlan, Ok(env))
    ensures status == 1 <==> AllOk(PipelinePlan, Ok(env))
  {
    status, calls := OpenPipeAndForkWriter(env);
    if status == 1 {
      var rest;
      status, rest := ForkReaderAndWait(env);
      AttemptedAfter(PipelinePlan, Ok(env), 3);
      AllOkSplit(PipelinePlan, Ok(env), 3);
      calls := calls + rest;
    }
  }

  /** The first half of a pipeline: open the pipe, fork the writer, and
      close the parent's copy of the write end. */
  method OpenPipeAndForkWriter(env: Env) returns (status: int, calls: seq<Call>)
    ensures status == 0 || status == 1
    ensures status == 1 <==> AllOk(PipelinePlan[..3], Ok(env))
    ensures status == 1 ==> calls == PipelinePlan[..3]
    ensures status == 0 ==> calls == Attempted(PipelinePlan, Ok(env)) && !AllOk(PipelinePlan, Ok(env))
  {
    var p := PipelinePlan;
    var ok := Ok(env);
    calls := [OpenPipe];
    if !env.pipeOk {
      StopAt(p, ok, 0);
      return 0, calls;
    }
    calls := calls + [ForkChild(First)];
    if env.fork1.ForkFailed? {
      StopAt(p, ok, 1);
      return 0, calls;
    }
    calls := calls + [CloseWriteEnd];
    if !env.closeWriteOk {
      StopAt(p, ok, 2);
      return 0, calls;
    }
    return 1, calls;
  }

  /** The second half of a pipeline: fork the reader, close the parent's
      copy of the read end, and wait for the writer and then the reader. */
  method ForkReaderAndWait(env: Env) returns (status: int, calls: seq<Call>)
    ensures status == 0 || status == 1
    ensures calls == Attempted(PipelinePlan[3..], Ok(env))
    ensures status == 1 <==> AllOk(PipelinePlan[3..], Ok(env))
  {
    var p := PipelinePlan[3..];
    var ok := Ok(env);
    calls := [ForkChild(Second)];
    if env.fork2.ForkFailed? {
      StopAt(p, ok, 0);
      return 0, calls;
    }
    calls := calls + [CloseReadEnd];
    if !env.closeReadOk {
      StopAt(p, ok, 1);
      return 0, calls;
    }
    calls := calls + [WaitChild(First)];
    if !WaitTolerated(env.wait1) {
      StopAt(p, ok, 2);
      return 0, calls;
    }
    calls := calls + [WaitChild(Second)];
    StopAt(p, ok, 3);
    if !WaitTolerated(env.wait2) {
      return 0, calls;
    }
    return 1, calls;
  }

  /** A background command returns 1 as soon as its fork succeeds and never
      waits; every foreground child is waited for. */
  lemma WaitsExactlyForeground(m: Mode, stage: Stage)
    ensures WaitChild(stage) in Plan(m) <==>
      ForkChild(stage) in Plan(m) && IsForeground(RoleOf(m, stage))
  {
  }

  /** The pipe ends the parent holds after its calls, counting a close only
      when it succeeded. */
  function ParentPipeEnds(calls: seq<Call>, env: Env): set<Channel>
    decreases |calls|
  {
    if |calls| == 0 then {}
    else
      var before := ParentPipeEnds(calls[..|calls| - 1], env);
      match calls[|calls| - 1]
      case OpenPipe => if env.pipeOk then {PipeReadEnd, PipeWriteEnd} else before
      case CloseWriteEnd => if env.closeWriteOk then before - {PipeWriteEnd} else before
      case CloseReadEnd => if env.closeReadOk then before - {PipeReadEnd} else before
      case _ => before
  }

  /** The pipe ends among a descriptor table's channels. */
  function PipeEndsHeld(fds: map<Fd, Channel>): set<Channel>
  {
    set c | c in fds.Values && (c == PipeReadEnd || c == PipeWriteEnd)
  }

  /** Where the child of `stage` is forked in the plan. */
  function IndexOfFork(plan: seq<Call>, stage: Stage): (k: nat)
    requires ForkChild(stage) in plan
    ensures k < |plan| && plan[k] == ForkChild(stage)
    ensures forall j :: 0 <= j < k ==> plan[j] != ForkChild(stage)
  {
    if plan[0] == ForkChild(stage) then 0 else 1 + IndexOfFork(plan[1..], stage)
  }

  /** When the parent reaches the fork of a child, the pipe ends it holds
      are exactly the pipe ends that child starts with: the writer receives
      both, the reader only the read end, and the other roles none. */
  lemma ChildrenInheritParentEnds(m: Mode, stage: Stage, env: Env)
    requires ForkChild(stage) in Plan(m)
    requires AllOk(Plan(m)[..IndexOfFork(Plan(m), stage)], Ok(env))
    ensures ParentPipeEnds(Plan(m)[..IndexOfFork(Plan(m), stage)], env) ==
      PipeEndsHeld(InheritedFds(RoleOf(m, stage)))
  {
    var p := Plan(m);
    var k := IndexOfFork(p, stage);
    var fds := InheritedFds(RoleOf(m, stage));
    assert ShellInput in fds.Values by { assert fds[StdIn] == ShellInput; }
    if m.Pipeline? {
      assert PipeReadEnd in fds.Values by { assert fds[PipeReadFd] == PipeReadEnd; }
      var pre := p[..k];
      if stage.First? {
        assert k == 1;
        assert pre == [OpenPipe];
        assert pre[..0] == [];
        assert ok0: Ok(env)(pre[0]);
        assert PipeWriteEnd in fds.Values by { assert fds[PipeWriteFd] == PipeWriteEnd; }
      } else {
        assert k == 3;
        assert pre == [OpenPipe, ForkChild(First), CloseWriteEnd];
        assert pre[..2] == [OpenPipe, ForkChild(First)];
        assert pre[..2][..1] == [OpenPipe];
        assert pre[..2][..1][..0] == [];
        assert Ok(env)(pre[0]) && Ok(env)(pre[2]);
        assert ParentPipeEnds(pre[..2][..1], env) == {PipeReadEnd, PipeWriteEnd};
        assert ParentPipeEnds(pre[..2], env) == {PipeReadEnd, PipeWriteEnd};
        assert ParentPipeEnds(pre, env) == {PipeReadEnd};
        assert PipeWriteEnd !in fds.Values;
        assert PipeEndsHeld(fds) == {PipeReadEnd};
      }
    } else {
      assert k == 0;
      assert PipeEndsHeld(fds) == {};
    }
  }

  /** The pipe ends the parent holds after each prefix of a pipeline's calls. */
  lemma EndsAlongPipeline(env: Env)
    ensures var p := PipelinePlan;
      var held := if env.pipeOk then {PipeReadEnd, PipeWriteEnd} else {};
      var afterWrite := if env.closeWriteOk then held - {PipeWriteEnd} else held;
      var afterRead := if env.closeReadOk then afterWrite - {PipeReadEnd} else afterWrite;
      && ParentPipeEnds(p[..1], env) == held
      && ParentPipeEnds(p[..2], env) == held
      && ParentPipeEnds(p[..3], env) == afterWrite
      && ParentPipeEnds(p[..4], env) == afterWrite
      && ParentPipeEnds(p[..5], env) == afterRead
      && ParentPipeEnds(p[..6], env) == afterRead
      && ParentPipeEnds(p, env) == afterRead
  {
    var p := PipelinePlan;
    assert p[..1][..0] == [];
    assert p[..2][..1] == p[..1];
    assert p[..3][..2] == p[..2];
    assert p[..4][..3] == p[..3];
    assert p[..5][..4] == p[..4];
    assert p[..6][..5] == p[..5];
    assert p[..6] == p[..|p| - 1];
  }

  /** A pipeline that returns 1 leaves the parent holding no pipe end. */
  lemma PipelineSuccessClosesBoth(env: Env)
    requires AllOk(PipelinePlan, Ok(env))
    ensures ParentPipeEnds(Attempted(PipelinePlan, Ok(env)), env) == {}
  {
    EndsAlongPipeline(env);
    assert Ok(env)(PipelinePlan[0]) && Ok(env)(PipelinePlan[2]) && Ok(env)(PipelinePlan[4]);
    StopAt(PipelinePlan, Ok(env), 6);
  }

  /** A failed pipe() returns before anything is held. */
  lemma PipeFailureHoldsNothing(env: Env)
    requires !env.pipeOk
    ensures ParentPipeEnds(Attempted(PipelinePlan, Ok(env)), env) == {}
  {
    EndsAlongPipeline(env);
    StopAt(PipelinePlan, Ok(env), 0);
  }

  /** A failed first fork returns early with both pipe ends still open in
      the parent. */
  lemma FirstForkFailureLeavesBothEnds(env: Env)
    requires env.pipeOk && env.fork1.ForkFailed?
    ensures ParentPipeEnds(Attempted(PipelinePlan, Ok(env)), env) == {PipeReadEnd, PipeWriteEnd}
  {
    EndsAlongPipeline(env);
    StopAt(PipelinePlan, Ok(env), 1);
  }

  /** A failed second fork returns early with the read end still open and
      the already running writer never waited for. */
  lemma SecondForkFailureLeavesReadEnd(env: Env)
    requires env.pipeOk && env.fork1.Forked? && env.closeWriteOk && env.fork2.ForkFailed?
    ensures var calls := Attempted(PipelinePlan, Ok(env));
      ParentPipeEnds(calls, env) == {PipeReadEnd} && WaitChild(First) !in calls
  {
    EndsAlongPipeline(env);
    StopAt(PipelinePlan, Ok(env), 3);
    assert PipelinePlan[..4] == [OpenPipe, ForkChild(First), CloseWriteEnd, ForkChild(Second)];
  }
}
