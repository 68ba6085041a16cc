/**
 * The retry-by-credential pattern shared by `ask_gemini` and
 * `tool_google_search` (main.py lines 46-67 and 78-111): walk the shuffled
 * pool once, stop at the first attempt that succeeds, give up after the last.
 * `attempt(i, key)` is what the `i`-th try with `key` yields (`None` when it
 * raised or was rejected).
 */
module Rotation {
  import opened Wrappers

  /** How one call ended: the first success, if any, and how many keys were tried. */
  datatype Run<R> = Run(result: Option<R>, tried: nat)

  function RunFrom<R>(order: seq<string>, i: nat, attempt: (nat, string) -> Option<R>): (run: Run<R>)
    requires i <= |order|
    ensures i <= run.tried <= |order|
    ensures run.result == None ==> run.tried == |order|
    ensures run.result.Some? ==> i < run.tried
    decreases |order| - i
  {
    if i == |order| then Run(None, |order|)
    else
      match attempt(i, order[i])
      case Some(r) => Run(Some(r), i + 1)
      case None => RunFrom(order, i + 1, attempt)
  }

  /** One step of the pass: a success ends it, a failure moves to the next key. */
  lemma RunFromStep<R>(order: seq<string>, i: nat, attempt: (nat, string) -> Option<R>)
    requires i < |order|
    ensures attempt(i, order[i]).Some? ==> RunFrom(order, i, attempt) == Run(attempt(i, order[i]), i + 1)
    ensures attempt(i, order[i]).None? ==> RunFrom(order, i, attempt) == RunFrom(order, i + 1, attempt)
  {
  }

  /** One pass over `order`, as the `for key in ...` loop makes it. */
  function Rotate<R>(order: seq<string>, attempt: (nat, string) -> Option<R>): (run: Run<R>)
    ensures run.tried <= |order|
    ensures run.result.Some? ==> 0 < run.tried
  {
    RunFrom(order, 0, attempt)
  }

  lemma {:induction false} RunFromFails<R>(order: seq<string>, i: nat, attempt: (nat, string) -> Option<R>)
    requires i <= |order|
    ensures RunFrom(order, i, attempt).result == None
            <==> forall j :: i <= j < |order| ==> attempt(j, order[j]) == None
    decreases |order| - i
  {
    if i < |order| {
      RunFromFails(order, i + 1, attempt);
    }
  }

  lemma {:induction false} RunFromFirst<R>(order: seq<string>, i: nat, attempt: (nat, string) -> Option<R>)
    requires i <= |order|
    ensures var run := RunFrom(order, i, attempt);
            run.result.Some? ==>
              && attempt(run.tried - 1, order[run.tried - 1]) == run.result
              && forall j :: i <= j < run.tried - 1 ==> attempt(j, order[j]) == None
    decreases |order| - i
  {
    if i < |order| && attempt(i, order[i]).None? {
      RunFromFirst(order, i + 1, attempt);
    }
  }

  /** The call fails, having tried every key once, exactly when every attempt fails. */
  lemma RotateFails<R>(order: seq<string>, attempt: (nat, string) -> Option<R>)
    ensures Rotate(order, attempt).result == None
            <==> forall j :: 0 <= j < |order| ==> attempt(j, order[j]) == None
    ensures Rotate(order, attempt).result == None ==> Rotate(order, attempt).tried == |order|
  {
    RunFromFails(order, 0, attempt);
  }

  /** A successful call returns what its last attempt returned, and every earlier attempt failed. */
  lemma RotateFirstSuccess<R>(order: seq<string>, attempt: (nat, string) -> Option<R>)
    ensures var run := Rotate(order, attempt);
            run.result.Some? ==>
              && 1 <= run.tried <= |order|
              && attempt(run.tried - 1, order[run.tried - 1]) == run.result
              && forall j :: 0 <= j < run.tried - 1 ==> attempt(j, order[j]) == None
  {
    RunFromFirst(order, 0, attempt);
  }

  /** Conversely, the first key whose attempt succeeds decides the call. */
  lemma {:induction false} RotateDecidedBy<R>(order: seq<string>, k: nat, attempt: (nat, string) -> Option<R>)
    requires k < |order| && attempt(k, order[k]).Some?
    requires forall j :: 0 <= j < k ==> attempt(j, order[j]) == None
    ensures Rotate(order, attempt) == Run(attempt(k, order[k]), k + 1)
  {
    var i := k;
    while i > 0
      invariant 0 <= i <= k
      invariant RunFrom(order, i, attempt) == Run(attempt(k, order[k]), k + 1)
    {
      i := i - 1;
    }
  }
}
