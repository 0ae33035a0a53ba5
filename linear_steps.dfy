/**
 * The step-list arithmetic both purchase wizards share: the current step is
 * looked up with `indexOf` in a fixed ordered list, and moving forward or back
 * is that index plus or minus one, kept inside the list.
 */
module LinearSteps {

  /** Position of the first occurrence of `s`, or -1 when `s` is absent (`Array.prototype.indexOf`). */
  function IndexOf<T(==)>(steps: seq<T>, s: T): (i: int)
    ensures -1 <= i < |steps|
    ensures i == -1 <==> s !in steps
    ensures 0 <= i ==> steps[i] == s && s !in steps[..i]
  {
    if steps == [] then -1
    else if steps[0] == s then 0
    else
      var j := IndexOf(steps[1..], s);
      if j == -1 then -1
      else
        assert steps[..j + 1] == [steps[0]] + steps[1..][..j];
        j + 1
  }

  /** No step occurs twice in the list. */
  predicate Distinct<T(==)>(steps: seq<T>) {
    forall i, j :: 0 <= i < j < |steps| ==> steps[i] != steps[j]
  }

  /** `nextStep`: the step after `s`; `s` itself at the last step. */
  function Next<T(==)>(steps: seq<T>, s: T): T
    requires |steps| > 0
  {
    var i := IndexOf(steps, s);
    if i < |steps| - 1 then steps[i + 1] else s
  }

  /** `prevStep`: the step before `s`; `s` itself at the first step. */
  function Prev<T(==)>(steps: seq<T>, s: T): T {
    var i := IndexOf(steps, s);
    if i > 0 then steps[i - 1] else s
  }

  /** In a list without repetitions, `indexOf` finds every step at its own position. */
  lemma IndexOfDistinct<T>(steps: seq<T>, k: int)
    requires Distinct(steps) && 0 <= k < |steps|
    ensures IndexOf(steps, steps[k]) == k
  {
    var i := IndexOf(steps, steps[k]);
    assert forall j :: 0 <= j < i ==> steps[..i][j] == steps[j];
  }

  /** `nextStep` moves exactly one position forward, clamped at the last step. */
  lemma NextMovesOne<T>(steps: seq<T>, s: T)
    requires Distinct(steps) && s in steps
    ensures Next(steps, s) in steps
    ensures IndexOf(steps, Next(steps, s)) ==
            if IndexOf(steps, s) < |steps| - 1 then IndexOf(steps, s) + 1 else |steps| - 1
  {
    var i := IndexOf(steps, s);
    if i < |steps| - 1 {
      IndexOfDistinct(steps, i + 1);
    }
  }

  /** `prevStep` moves exactly one position back, clamped at the first step. */
  lemma PrevMovesOne<T>(steps: seq<T>, s: T)
    requires Distinct(steps) && s in steps
    ensures Prev(steps, s) in steps
    ensures IndexOf(steps, Prev(steps, s)) == if IndexOf(steps, s) > 0 then IndexOf(steps, s) - 1 else 0
  {
    var i := IndexOf(steps, s);
    if i > 0 {
      IndexOfDistinct(steps, i - 1);
    }
  }

  /** Going forward and then back returns to the step one started from, except at the last step. */
  lemma PrevAfterNext<T>(steps: seq<T>, s: T)
    requires Distinct(steps) && s in steps && s != steps[|steps| - 1]
    ensures Prev(steps, Next(steps, s)) == s
  {
    var i := IndexOf(steps, s);
    IndexOfDistinct(steps, i + 1);
  }

  /** Going back and then forward returns to the step one started from, except at the first step. */
  lemma NextAfterPrev<T>(steps: seq<T>, s: T)
    requires Distinct(steps) && s in steps && s != steps[0]
    ensures Next(steps, Prev(steps, s)) == s
  {
    var i := IndexOf(steps, s);
    IndexOfDistinct(steps, i - 1);
  }
}
