/** The budget arithmetic of execute_run's loop, on its own. */
module Budget {
  /** Credits spent by the first k skills. */
  function Spent(charges: seq<int>, k: nat): int
    requires k <= |charges|
  {
    if k == 0 then 0 else Spent(charges, k - 1) + charges[k - 1]
  }

  /** The skill at which the loop stops, from skill k on with `remaining` credits left. */
  function Stop(needs: seq<int>, charges: seq<int>, k: nat, remaining: int): (stop: nat)
    requires k <= |needs| == |charges|
    ensures k <= stop <= |needs|
    decreases |needs| - k
  {
    if k == |needs| || needs[k] > remaining then k else Stop(needs, charges, k + 1, remaining - charges[k])
  }

  /** The loop runs exactly the first skills, up to the least index whose reservation exceeds the
      budget minus the charges so far, or to the end. */
  lemma {:induction false} StopIsLeast(needs: seq<int>, charges: seq<int>, k: nat, budget: int)
    requires k <= |needs| == |charges|
    ensures var stop := Stop(needs, charges, k, budget - Spent(charges, k));
            && (stop < |needs| ==> needs[stop] > budget - Spent(charges, stop))
            && forall j :: k <= j < stop ==> needs[j] <= budget - Spent(charges, j)
    decreases |needs| - k
  {
    if k < |needs| && needs[k] <= budget - Spent(charges, k) {
      StopIsLeast(needs, charges, k + 1, budget);
    }
  }

  /** A larger budget never shortens the executed prefix. */
  lemma {:induction false} MoreBudgetRunsMore(needs: seq<int>, charges: seq<int>, k: nat, less: int, more: int)
    requires k <= |needs| == |charges| && less <= more
    ensures Stop(needs, charges, k, less) <= Stop(needs, charges, k, more)
    decreases |needs| - k
  {
    if k < |needs| && needs[k] <= less {
      MoreBudgetRunsMore(needs, charges, k + 1, less - charges[k], more - charges[k]);
    }
  }

  /** A budget that covers every reservation is never exhausted when each charge is within its own. */
  lemma {:induction false} CoveredBudgetSuffices(needs: seq<int>, charges: seq<int>, k: nat, remaining: int)
    requires k <= |needs| == |charges|
    requires forall j :: k <= j < |needs| ==> 0 <= needs[j] && charges[j] <= needs[j]
    requires Spent(needs, |needs|) - Spent(needs, k) <= remaining
    ensures Stop(needs, charges, k, remaining) == |needs|
    decreases |needs| - k
  {
    if k < |needs| {
      SpentGrows(needs, k + 1, |needs|);
      CoveredBudgetSuffices(needs, charges, k + 1, remaining - charges[k]);
    }
  }

  lemma {:induction false} SpentGrows(needs: seq<int>, i: nat, j: nat)
    requires i <= j <= |needs| && forall m :: i <= m < j ==> 0 <= needs[m]
    ensures Spent(needs, i) <= Spent(needs, j)
    decreases j
  {
    if i < j {
      SpentGrows(needs, i, j - 1);
    }
  }

  /** Skill j is the first to charge more than was left, among skills whose reservations all fitted. */
  predicate OverspendsAt(needs: seq<int>, charges: seq<int>, budget: int, j: nat) {
    && j < |needs| == |charges|
    && (forall i :: 0 <= i <= j ==> needs[i] <= budget - Spent(charges, i))
    && (forall i :: 0 <= i < j ==> charges[i] <= budget - Spent(charges, i))
    && charges[j] > budget - Spent(charges, j)
  }

  /** If some skill the loop reaches charges too much, there is a first one. */
  lemma {:induction false} FirstOverspend(needs: seq<int>, charges: seq<int>, budget: int, stop: nat,
                                          k: nat) returns (j: nat)
    requires |needs| == |charges| && k < stop == Stop(needs, charges, 0, budget)
    requires charges[k] > budget - Spent(charges, k)
    ensures OverspendsAt(needs, charges, budget, j)
    decreases k
  {
    if i :| 0 <= i < k && charges[i] > budget - Spent(charges, i) {
      j := FirstOverspend(needs, charges, budget, stop, i);
    } else {
      j := k;
      ReachedFits(needs, charges, budget, stop);
    }
  }

  lemma ReachedFits(needs: seq<int>, charges: seq<int>, budget: int, stop: nat)
    requires |needs| == |charges| && stop == Stop(needs, charges, 0, budget)
    ensures forall i :: 0 <= i < stop ==> needs[i] <= budget - Spent(charges, i)
  {
    StopIsLeast(needs, charges, 0, budget);
  }
}
