/** The commit list's paging rules of static/overview-app/src/utils/commits.ts. */
module Commits {

  const InitialVisibleCommits := 5

  function Min(a: int, b: int): (r: int)
  {
    if a <= b then a else b
  }

  /** `items.slice(0, visibleCount)`: a negative end counts from the back, and the end
      is clamped to the list. */
  function GetVisibleCommits<T>(items: seq<T>, visibleCount: int): (r: seq<T>)
    ensures r <= items
    ensures visibleCount >= 0 ==> |r| == Min(visibleCount, |items|)
    ensures visibleCount < 0 ==> |r| == if |items| + visibleCount > 0 then |items| + visibleCount else 0
  {
    var end := if visibleCount >= 0 then Min(visibleCount, |items|)
               else if |items| + visibleCount > 0 then |items| + visibleCount else 0;
    items[..end]
  }

  /** Showing more never hides a commit that was shown: fewer visible commits are a
      prefix of more. */
  lemma VisibleCommitsGrow<T>(items: seq<T>, m: nat, n: nat)
    requires m <= n
    ensures GetVisibleCommits(items, m) <= GetVisibleCommits(items, n)
  {
  }

  /** `hash.substring(0, 7)`: the first seven characters, or the whole hash. */
  function GetShortCommitHash(hash: string): (r: string)
    ensures r <= hash && |r| == Min(7, |hash|)
  {
    hash[..Min(7, |hash|)]
  }

  /** `getNextVisibleCount`: one step more while not everything is shown (never past
      the total), back to one step once it is. */
  function GetNextVisibleCount(current: int, total: int, step: int): (r: int)
    ensures current < total ==> r <= total && (step > 0 ==> r > current)
    ensures current < total && current + step >= total ==> r == total
    ensures current < total && current + step < total ==> r == current + step
    ensures current >= total ==> r == step
  {
    if current < total then Min(total, current + step) else step
  }

  /** `getToggleLabel` */
  function GetToggleLabel(current: int, total: int): (r: string)
    ensures r == "Show more" <==> current < total
    ensures r == "Show less" <==> current >= total
  {
    if current < total then "Show more" else "Show less"
  }

  /** The visible count after `k` presses of the toggle. */
  function Presses(current: int, total: int, step: int, k: nat): (r: int)
    decreases k
  {
    if k == 0 then current else Presses(GetNextVisibleCount(current, total, step), total, step, k - 1)
  }

  /** How many presses it takes to show everything. */
  function PressesToShowAll(current: int, total: int, step: int): (r: nat)
    requires step > 0
    decreases total - current
  {
    if current >= total then 0 else 1 + PressesToShowAll(GetNextVisibleCount(current, total, step), total, step)
  }

  /** From any count up to the total, pressing "Show more" reaches the total exactly,
      after a finite number of presses each of which still offered "Show more". */
  lemma {:induction false} PressesReachTotal(current: int, total: int, step: int)
    requires step > 0 && current <= total
    decreases total - current
    ensures var k := PressesToShowAll(current, total, step);
      Presses(current, total, step, k) == total
      && forall i :: 0 <= i < k ==> GetToggleLabel(Presses(current, total, step, i), total) == "Show more"
  {
    if current < total {
      var next := GetNextVisibleCount(current, total, step);
      PressesReachTotal(next, total, step);
      var k := PressesToShowAll(current, total, step);
      forall i | 0 <= i < k
        ensures GetToggleLabel(Presses(current, total, step, i), total) == "Show more"
      {
        if i > 0 {
          assert Presses(current, total, step, i) == Presses(next, total, step, i - 1);
        }
      }
    }
  }

  /** The paging cycle from the initial five: the list grows to the total, then the
      label turns to "Show less" and the next press resets to one step. */
  lemma PagingCycle(total: int, step: int)
    requires step > 0 && total >= InitialVisibleCommits
    ensures var k := PressesToShowAll(InitialVisibleCommits, total, step);
      && Presses(InitialVisibleCommits, total, step, k) == total
      && GetToggleLabel(Presses(InitialVisibleCommits, total, step, k), total) == "Show less"
      && GetNextVisibleCount(Presses(InitialVisibleCommits, total, step, k), total, step) == step
      && forall i :: 0 <= i < k ==> GetToggleLabel(Presses(InitialVisibleCommits, total, step, i), total) == "Show more"
  {
    PressesReachTotal(InitialVisibleCommits, total, step);
  }
}
