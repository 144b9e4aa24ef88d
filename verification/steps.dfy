/** Every process in the shell core, the parent and each forked child, follows
    the same discipline: it performs a fixed list of system calls in order and
    gives up at the first one that fails (the parent by returning 0, a child by
    calling exit(1)). This module defines that discipline once. */
module Steps {

  /** True iff every step in `steps` succeeds under `ok`. */
  predicate AllOk<S>(steps: seq<S>, ok: S -> bool)
  {
    forall j :: 0 <= j < |steps| ==> ok(steps[j])
  }

  /** The position of the first step of `plan` that fails, or `|plan|` when
      none does. */
  function FirstFailure<S>(plan: seq<S>, ok: S -> bool): (k: nat)
    ensures k <= |plan|
    ensures forall j :: 0 <= j < k ==> ok(plan[j])
    ensures k < |plan| ==> !ok(plan[k])
  {
    if |plan| == 0 || !ok(plan[0]) then 0
    else 1 + FirstFailure(plan[1..], ok)
  }

  /** The steps of `plan` that are actually attempted when execution stops
      right after the first step that fails. */
  function Attempted<S>(plan: seq<S>, ok: S -> bool): (done: seq<S>)
    ensures |done| <= |plan| && done == plan[..|done|]
    ensures forall j :: 0 <= j < |done| - 1 ==> ok(done[j])
    ensures |done| == |plan| || (0 < |done| && !ok(done[|done| - 1]))
    ensures AllOk(done, ok) <==> done == plan && AllOk(plan, ok)
  {
    var k := FirstFailure(plan, ok);
    if k < |plan| then plan[..k + 1] else plan
  }

  /** When every step before `k` succeeds, step `k` decides: if it fails the
      attempt stops right there, and if it is the last and succeeds the whole
      plan is carried out. */
  lemma StopAt<S>(plan: seq<S>, ok: S -> bool, k: nat)
    requires k < |plan|
    requires forall j :: 0 <= j < k ==> ok(plan[j])
    ensures !ok(plan[k]) ==> Attempted(plan, ok) == plan[..k + 1] && !AllOk(plan, ok)
    ensures k == |plan| - 1 && ok(plan[k]) ==> Attempted(plan, ok) == plan && AllOk(plan, ok)
  {
    var f := FirstFailure(plan, ok);
    if !ok(plan[k]) {
      assert f == k;
    } else if k == |plan| - 1 {
      assert f == |plan|;
    }
  }

  /** A plan succeeds throughout iff both parts of any split of it do. */
  lemma AllOkSplit<S>(plan: seq<S>, ok: S -> bool, k: nat)
    requires k <= |plan|
    ensures AllOk(plan, ok) <==> AllOk(plan[..k], ok) && AllOk(plan[k..], ok)
  {
    if AllOk(plan[..k], ok) && AllOk(plan[k..], ok) {
      forall j | 0 <= j < |plan| ensures ok(plan[j]) {
        if j < k {
          assert plan[j] == plan[..k][j];
        } else {
          assert plan[j] == plan[k..][j - k];
        }
      }
    }
  }

  /** Once the first `k` steps have succeeded, the rest of the attempt is
      the attempt of the rest of the plan. */
  lemma AttemptedAfter<S>(plan: seq<S>, ok: S -> bool, k: nat)
    requires k <= |plan|
    requires AllOk(plan[..k], ok)
    ensures Attempted(plan, ok) == plan[..k] + Attempted(plan[k..], ok)
  {
    var f := FirstFailure(plan, ok);
    var g := FirstFailure(plan[k..], ok);
    forall j | 0 <= j < k ensures ok(plan[j]) {
      assert plan[j] == plan[..k][j];
    }
    forall j | k <= j < k + g ensures ok(plan[j]) {
      assert plan[j] == plan[k..][j - k];
    }
    if k + g < |plan| {
      assert plan[k + g] == plan[k..][g];
    }
    assert f == k + g;
    if f < |plan| {
      assert plan[..f + 1] == plan[..k] + plan[k..][..g + 1];
    } else {
      assert plan == plan[..k] + plan[k..];
    }
  }
}
