/**
 * The semantics of a sequence of throwing calls made one after another, as
 * a Swift `for` loop around `try` makes them: the first call that throws
 * ends the loop, and so every enclosing loop.
 */
module FailFast {
  import opened Wrappers

  /** The calls made and the call whose error ended the run, if one did. */
  datatype Outcome<C> = Outcome(trace: seq<C>, failure: Option<C>)

  /** Making `calls` in order, where a call for which `fails` holds throws and ends the run. */
  function Run<C>(calls: seq<C>, fails: C -> bool): Outcome<C>
    decreases |calls|
  {
    if |calls| == 0 then Outcome([], None)
    else if fails(calls[0]) then Outcome([calls[0]], Some(calls[0]))
    else
      var rest := Run(calls[1..], fails);
      Outcome([calls[0]] + rest.trace, rest.failure)
  }

  /** `calls[n]` is the first call that throws. */
  ghost predicate FirstFailure<C>(calls: seq<C>, fails: C -> bool, n: int) {
    0 <= n < |calls| && fails(calls[n]) && forall i :: 0 <= i < n ==> !fails(calls[i])
  }

  /**
   * Fail-fast: with no throwing call every call is made and nothing fails;
   * otherwise the calls up to and including the first throwing one are
   * made, that call is the failure, and no later call is made.
   */
  lemma {:induction false} RunSpec<C>(calls: seq<C>, fails: C -> bool)
    ensures Run(calls, fails).failure.None? <==> forall i :: 0 <= i < |calls| ==> !fails(calls[i])
    ensures Run(calls, fails).failure.None? ==> Run(calls, fails).trace == calls
    ensures forall n :: FirstFailure(calls, fails, n) ==>
      Run(calls, fails).trace == calls[..n + 1] && Run(calls, fails).failure == Some(calls[n])
    decreases |calls|
  {
    if |calls| > 0 && !fails(calls[0]) {
      var rest := calls[1..];
      RunSpec(rest, fails);
      assert calls == [calls[0]] + rest;
      forall n | FirstFailure(calls, fails, n)
        ensures Run(calls, fails).trace == calls[..n + 1] && Run(calls, fails).failure == Some(calls[n])
      {
        assert FirstFailure(rest, fails, n - 1);
        assert calls[..n + 1] == [calls[0]] + rest[..n];
      }
      if forall i :: 0 <= i < |rest| ==> !fails(rest[i]) {
        forall i | 0 <= i < |calls|
          ensures !fails(calls[i])
        {
          if i > 0 {
            assert calls[i] == rest[i - 1];
          }
        }
      }
    }
  }

  /** Once every call made so far has succeeded, the run goes on with the remaining calls. */
  lemma {:induction false} RunSkip<C>(done: seq<C>, rest: seq<C>, fails: C -> bool)
    requires forall i :: 0 <= i < |done| ==> !fails(done[i])
    ensures Run(done + rest, fails) == Outcome(done + Run(rest, fails).trace, Run(rest, fails).failure)
    decreases |done|
  {
    if |done| == 0 {
      assert done + rest == rest;
    } else {
      var head := done[0];
      var tail := done[1..];
      var all := done + rest;
      assert all[0] == head && !fails(head);
      assert all[1..] == tail + rest;
      assert forall i :: 0 <= i < |tail| ==> tail[i] == done[i + 1];
      RunSkip(tail, rest, fails);
      assert Run(all, fails) == Outcome([head] + Run(tail + rest, fails).trace, Run(tail + rest, fails).failure);
      assert done == [head] + tail;
    }
  }

  /** A run that fails within `calls` never reaches `later`. */
  lemma {:induction false} RunStopsWithin<C>(calls: seq<C>, later: seq<C>, fails: C -> bool)
    requires Run(calls, fails).failure.Some?
    ensures Run(calls + later, fails) == Run(calls, fails)
    decreases |calls|
  {
    if !fails(calls[0]) {
      assert (calls + later)[1..] == calls[1..] + later;
      RunStopsWithin(calls[1..], later, fails);
    }
  }

  /** Where a run stands after `trace`, with `rest` still to be made. */
  function Continue<C>(trace: seq<C>, rest: seq<C>, fails: C -> bool): Outcome<C> {
    Outcome(trace + Run(rest, fails).trace, Run(rest, fails).failure)
  }

  /** Making the next call either ends the run with it or moves it onto the trace. */
  lemma ContinueStep<C>(trace: seq<C>, c: C, rest: seq<C>, fails: C -> bool)
    ensures Continue(trace, [c] + rest, fails) ==
      if fails(c) then Outcome(trace + [c], Some(c)) else Continue(trace + [c], rest, fails)
  {
    assert ([c] + rest)[1..] == rest;
  }

  /** A block of calls either ends the run inside it or is made in full, the run going on after it. */
  lemma ContinueBlock<C>(trace: seq<C>, here: seq<C>, later: seq<C>, fails: C -> bool)
    ensures Continue(trace, here + later, fails) ==
      if Run(here, fails).failure.Some? then Outcome(trace + Run(here, fails).trace, Run(here, fails).failure)
      else Continue(trace + Run(here, fails).trace, later, fails)
  {
    RunSpec(here, fails);
    if Run(here, fails).failure.Some? {
      RunStopsWithin(here, later, fails);
    } else {
      RunSkip(here, later, fails);
    }
  }
}
