/** Runs of steps in which what was done has to be settled before it can be lost. */
module Runs {

  /** A settling step comes between the `i`-th step, or the start, and every later reload. */
  ghost predicate IsSettled<T>(steps: seq<T>, reloads: T -> bool, settles: T -> bool, i: int) {
    forall j :: i < j < |steps| && 0 <= j && reloads(steps[j]) ==>
      exists k :: i < k < j && 0 <= k && settles(steps[k])
  }

  lemma SettledLater<T>(steps: seq<T>, reloads: T -> bool, settles: T -> bool, i: nat)
    requires steps != []
    ensures IsSettled(steps, reloads, settles, i) <==> IsSettled(steps[1..], reloads, settles, i - 1)
  {
    var rest := steps[1..];
    if IsSettled(steps, reloads, settles, i) {
      forall j | i - 1 < j < |rest| && 0 <= j && reloads(rest[j])
        ensures exists k :: i - 1 < k < j && 0 <= k && settles(rest[k])
      {
        var k :| i < k < j + 1 && 0 <= k && settles(steps[k]);
        assert settles(rest[k - 1]);
      }
    }
    if IsSettled(rest, reloads, settles, i - 1) {
      forall j | i < j < |steps| && 0 <= j && reloads(steps[j])
        ensures exists k :: i < k < j && 0 <= k && settles(steps[k])
      {
        assert reloads(rest[j - 1]);
        var k :| i - 1 < k < j - 1 && 0 <= k && settles(rest[k]);
        assert settles(steps[k + 1]);
      }
    }
  }

  lemma SettledFirst<T>(steps: seq<T>, reloads: T -> bool, settles: T -> bool)
    requires steps != []
    ensures IsSettled(steps, reloads, settles, -1) <==>
      !reloads(steps[0]) && (settles(steps[0]) || IsSettled(steps[1..], reloads, settles, -1))
  {
    var rest := steps[1..];
    if IsSettled(steps, reloads, settles, -1) && !settles(steps[0]) {
      forall j | -1 < j < |rest| && 0 <= j && reloads(rest[j])
        ensures exists k :: -1 < k < j && 0 <= k && settles(rest[k])
      {
        var k :| -1 < k < j + 1 && 0 <= k && settles(steps[k]);
        assert settles(rest[k - 1]);
      }
    }
    if !reloads(steps[0]) && IsSettled(rest, reloads, settles, -1) {
      forall j | -1 < j < |steps| && 0 <= j && reloads(steps[j])
        ensures exists k :: -1 < k < j && 0 <= k && settles(steps[k])
      {
        assert reloads(rest[j - 1]);
        var k :| -1 < k < j - 1 && 0 <= k && settles(rest[k]);
        assert settles(steps[k + 1]);
      }
    }
  }
}
