/** The argument vector as `process_arglist` sees it: an array of string
    pointers that the function edits in place, overwriting the one mode marker
    with NULL before forking, so that `execvp` — which reads arguments up to
    the first NULL — receives the vector without the marker. */
module Arglist {
  import opened Classifier

  /** One `char *` slot of the vector. */
  datatype Slot = Null | Arg(text: string)

  /** The caller's vector: `count` non-NULL pointers. */
  function Lift(args: seq<string>): (slots: seq<Slot>)
    ensures |slots| == |args|
    ensures forall i :: 0 <= i < |args| ==> slots[i] == Arg(args[i])
  {
    seq(|args|, i requires 0 <= i < |args| => Arg(args[i]))
  }

  /** The strings of a vector with no NULL slot. */
  function Texts(slots: seq<Slot>): (args: seq<string>)
    requires forall i :: 0 <= i < |slots| ==> slots[i].Arg?
    ensures Lift(args) == slots
  {
    seq(|slots|, i requires 0 <= i < |slots| => slots[i].text)
  }

  /** The slot that is overwritten with NULL, or -1 when the mode has no
      marker to remove: the last slot for a background command, the
      second-to-last for a redirect, and the first pipe marker for a
      pipeline. */
  function MarkerSlot(args: seq<string>): (k: int)
    requires 0 < |args|
    ensures -1 <= k < |args|
    ensures k == -1 <==> Classify(args).Simple?
    ensures Classify(args).Background? ==> k == |args| - 1 && args[k] == BackgroundMarker
    ensures Classify(args).InputRedirect? ==> k == |args| - 2 && args[k] == RedirectMarker
    ensures Classify(args).Pipeline? ==> k == PipeIndex(args) && args[k] == PipeMarker
  {
    match Classify(args)
    case Simple(_) => -1
    case Background(_) => |args| - 1
    case InputRedirect(_, _) => |args| - 2
    case Pipeline(left, _) => |left|
  }

  /** The vector after the classification prefix of `process_arglist`. */
  function Strip(args: seq<string>): (slots: seq<Slot>)
    requires 0 < |args|
    ensures |slots| == |args|
    ensures Classify(args).Simple? ==> slots == Lift(args)
    ensures forall i :: 0 <= i < |args| && i != MarkerSlot(args) ==> slots[i] == Arg(args[i])
    ensures forall i :: 0 <= i < |args| && slots[i] == Null ==> i == MarkerSlot(args)
    ensures MarkerSlot(args) != -1 ==> slots[MarkerSlot(args)] == Null
  {
    var k := MarkerSlot(args);
    if k == -1 then Lift(args) else Lift(args)[k := Null]
  }

  /** The argument list `execvp` reads when handed the vector starting at
      `start`: every string up to the first NULL, or up to the NULL that
      terminates the whole vector. */
  function ExecArgv(slots: seq<Slot>, start: nat): seq<string>
    requires start <= |slots|
    decreases |slots| - start
  {
    if start == |slots| || slots[start].Null? then []
    else [slots[start].text] + ExecArgv(slots, start + 1)
  }

  /** `execvp` reads exactly the run of strings between `start` and the next
      NULL (or the end). */
  lemma {:induction false} ExecArgvRun(slots: seq<Slot>, args: seq<string>, start: nat, end: nat)
    requires start <= end <= |slots| && end <= |args|
    requires forall i :: start <= i < end ==> slots[i] == Arg(args[i])
    requires end == |slots| || slots[end] == Null
    ensures ExecArgv(slots, start) == args[start..end]
    decreases end - start
  {
    if start < end {
      ExecArgvRun(slots, args, start + 1, end);
      assert args[start..end] == [args[start]] + args[start + 1..end];
    }
  }

  /** After the marker is NULLed, every process `execvp`s exactly the
      argument vector its mode names; the reader of a pipeline starts one
      slot past the NULLed "|", and a redirected command still finds its
      input path in the last slot. */
  lemma ExecSeesModeArgv(args: seq<string>)
    requires 0 < |args|
    ensures match Classify(args)
      case Simple(argv) => ExecArgv(Strip(args), 0) == argv
      case Background(argv) => ExecArgv(Strip(args), 0) == argv
      case InputRedirect(argv, path) =>
        ExecArgv(Strip(args), 0) == argv && Strip(args)[|args| - 1] == Arg(path)
      case Pipeline(left, right) =>
        && ExecArgv(Strip(args), 0) == left
        && ExecArgv(Strip(args), |left| + 1) == right
  {
    var s := Strip(args);
    var n := |args|;
    var k := MarkerSlot(args);
    match Classify(args)
    case Simple(argv) =>
      ExecArgvRun(s, args, 0, n);
      assert args[0..n] == args;
    case Background(argv) =>
      assert k == n - 1;
      ExecArgvRun(s, args, 0, n - 1);
    case InputRedirect(argv, path) =>
      assert k == n - 2;
      ExecArgvRun(s, args, 0, n - 2);
    case Pipeline(left, right) =>
      assert k == |left|;
      ExecArgvRun(s, args, 0, |left|);
      ExecArgvRun(s, args, |left| + 1, n);
  }

  /** The in-place marker removal at the head of `process_arglist`: at most
      one slot is overwritten and the mode is reported. */
  method RemoveMarker(arglist: array<Slot>) returns (mode: Mode)
    requires 0 < arglist.Length
    requires forall i :: 0 <= i < arglist.Length ==> arglist[i].Arg?
    modifies arglist
    ensures mode == Classify(Texts(old(arglist[..])))
    ensures arglist[..] == Strip(Texts(old(arglist[..])))
  {
    var args := Texts(arglist[..]);
    var n := arglist.Length;
    if arglist[n - 1].text == BackgroundMarker {
      arglist[n - 1] := Null;
      mode := Background(args[..n - 1]);
    } else if 1 < n && arglist[n - 2].text == RedirectMarker {
      arglist[n - 2] := Null;
      mode := InputRedirect(args[..n - 2], args[n - 1]);
    } else {
      var i := GetPipeIndex(args);
      if i >= 0 {
        FirstPipeUnique(args, i, PipeIndex(args));
        arglist[i] := Null;
        mode := Pipeline(args[..i], args[i + 1..]);
      } else {
        mode := Simple(args);
      }
    }
    assert arglist[..] == Strip(args);
  }
}
