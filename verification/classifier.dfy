/** The argument classifier at the head of `process_arglist`: it looks at the
    tokenized command line and picks one of four execution modes by a fixed
    priority — a trailing "&", then a "<" in the second-to-last slot, then the
    first "|" anywhere, and otherwise a plain command. */
module Classifier {

  const BackgroundMarker: string := "&"
  const RedirectMarker: string := "<"
  const PipeMarker: string := "|"

  /** The execution mode together with the argument vectors each spawned
      process hands to `execvp`. */
  datatype Mode =
    | Simple(argv: seq<string>)
    | Background(argv: seq<string>)
    | InputRedirect(argv: seq<string>, path: string)
    | Pipeline(left: seq<string>, right: seq<string>)

  /** `i` is the position of the first "|" in `args`. */
  ghost predicate IsFirstPipe(args: seq<string>, i: int)
  {
    && 0 <= i < |args|
    && args[i] == PipeMarker
    && forall j :: 0 <= j < i ==> args[j] != PipeMarker
  }

  /** Position of the first "|", or -1 when there is none. */
  function PipeIndex(args: seq<string>): (r: int)
    ensures -1 <= r < |args|
    ensures r == -1 <==> PipeMarker !in args
    ensures r != -1 ==> IsFirstPipe(args, r)
  {
    if |args| == 0 then -1
    else if args[0] == PipeMarker then 0
    else
      var k := PipeIndex(args[1..]);
      assert args == [args[0]] + args[1..];
      if k == -1 then -1 else k + 1
  }

  /** The scan of `get_pipe_index`: a left-to-right loop over the `count`
      arguments that returns at the first "|". */
  method GetPipeIndex(arglist: seq<string>) returns (r: int)
    ensures -1 <= r < |arglist|
    ensures r == -1 <==> PipeMarker !in arglist
    ensures r != -1 ==> IsFirstPipe(arglist, r)
  {
    var i := 0;
    while i < |arglist|
      invariant 0 <= i <= |arglist|
      invariant PipeMarker !in arglist[..i]
    {
      if arglist[i] == PipeMarker {
        return i;
      }
      assert arglist[..i + 1] == arglist[..i] + [arglist[i]];
      i := i + 1;
    }
    assert arglist[..i] == arglist;
    return -1;
  }

  /** A vector whose last two slots carry neither a trailing "&" nor a "<"
      just before the last element. */
  predicate NoSuffixMarker(args: seq<string>)
    requires 0 < |args|
  {
    && args[|args| - 1] != BackgroundMarker
    && !(1 < |args| && args[|args| - 2] == RedirectMarker)
  }

  /** The mode `process_arglist` selects for a non-empty argument vector. */
  function Classify(args: seq<string>): (m: Mode)
    requires 0 < |args|
    ensures m.Background? <==> args[|args| - 1] == BackgroundMarker
    ensures m.InputRedirect? <==>
      args[|args| - 1] != BackgroundMarker && 1 < |args| && args[|args| - 2] == RedirectMarker
    ensures m.Pipeline? <==> NoSuffixMarker(args) && PipeMarker in args
    ensures m.Simple? <==> NoSuffixMarker(args) && PipeMarker !in args
    ensures m.Pipeline? ==> PipeMarker !in m.left
  {
    var n := |args|;
    if args[n - 1] == BackgroundMarker then Background(args[..n - 1])
    else if 1 < n && args[n - 2] == RedirectMarker then InputRedirect(args[..n - 2], args[n - 1])
    else
      var i := PipeIndex(args);
      if i != -1 then Pipeline(args[..i], args[i + 1..]) else Simple(args)
  }

  /** The command line a mode stands for, markers put back. */
  function Reassemble(m: Mode): seq<string>
  {
    match m
    case Simple(argv) => argv
    case Background(argv) => argv + [BackgroundMarker]
    case InputRedirect(argv, path) => argv + [RedirectMarker, path]
    case Pipeline(left, right) => left + [PipeMarker] + right
  }

  /** The modes the classifier can produce: exactly those that survive a
      reassemble-then-classify round trip. */
  predicate Canonical(m: Mode)
  {
    match m
    case Simple(argv) => 0 < |argv| && NoSuffixMarker(argv) && PipeMarker !in argv
    case Background(_) => true
    case InputRedirect(_, path) => path != BackgroundMarker
    case Pipeline(left, right) =>
      PipeMarker !in left && NoSuffixMarker(left + [PipeMarker] + right)
  }

  /** Classification loses nothing: putting the markers back yields the
      original command line. */
  lemma ReassembleClassify(args: seq<string>)
    requires 0 < |args|
    ensures Reassemble(Classify(args)) == args
    ensures Canonical(Classify(args))
  {
    var n := |args|;
    var m := Classify(args);
    match m
    case Simple(_) =>
    case Background(argv) =>
      assert argv + [BackgroundMarker] == args;
    case InputRedirect(argv, path) =>
      assert argv + [RedirectMarker, path] == args;
    case Pipeline(left, right) =>
      var i := PipeIndex(args);
      assert left + [PipeMarker] + right == args[..i] + [args[i]] + args[i + 1..];
      assert args[..i] + [args[i]] + args[i + 1..] == args;
  }

  /** A mode is what the classifier returns for its reassembled command line
      if and only if it is canonical. */
  lemma ClassifyReassemble(m: Mode)
    ensures 0 < |Reassemble(m)| && Classify(Reassemble(m)) == m <==> Canonical(m)
  {
    var a := Reassemble(m);
    if Canonical(m) {
      match m
      case Simple(_) =>
      case Background(argv) =>
        assert a[..|a| - 1] == argv;
      case InputRedirect(argv, path) =>
        assert a[..|a| - 2] == argv;
      case Pipeline(left, right) =>
        var i := |left|;
        assert a[i] == PipeMarker;
        assert forall j :: 0 <= j < i ==> a[j] == left[j];
        assert IsFirstPipe(a, i);
        FirstPipeUnique(a, i, PipeIndex(a));
        assert a[..i] == left;
        assert a[i + 1..] == right;
    } else if 0 < |a| {
      ReassembleClassify(a);
    }
  }

  /** There is only one first "|". */
  lemma FirstPipeUnique(args: seq<string>, i: int, k: int)
    requires IsFirstPipe(args, i) && IsFirstPipe(args, k)
    ensures i == k
  {
  }

  /** A trailing "&" selects background mode whatever other markers appear,
      and `execvp` gets everything before it. */
  lemma BackgroundWins(argv: seq<string>)
    ensures Classify(argv + [BackgroundMarker]) == Background(argv)
  {
    assert (argv + [BackgroundMarker])[..|argv|] == argv;
  }

  /** A "<" in the second-to-last slot beats any earlier "|". */
  lemma RedirectBeatsPipe(argv: seq<string>, path: string)
    requires path != BackgroundMarker
    ensures Classify(argv + [RedirectMarker, path]) == InputRedirect(argv, path)
  {
    assert (argv + [RedirectMarker, path])[..|argv|] == argv;
  }
}
