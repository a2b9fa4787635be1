/** What the projection promises over whole runs: one record per year in
    year order, the capacity ceiling, the two-year lag of replacement
    heifers, cash as the running sum of net flows, a herd that never goes
    negative, the year-1 special cases and the reinvestment budget. */
module HerdProperties {
  import opened HerdConfig
  import opened Engine

  /** A shorter run is a prefix of a longer one: later years never rewrite
      an earlier record. */
  lemma {:induction false} RunPrefix(c: Config, m: nat, n: nat)
    requires Valid(c) && m <= n
    ensures Run(c, m).records == Run(c, n).records[..m]
    decreases n
  {
    if m < n {
      RunPrefix(c, m, n - 1);
      ghost var prev := Run(c, n - 1).records;
      RunGrows(c, n);
      assert Run(c, n).records[..m] == (prev + [StepAt(c, n).record])[..m] == prev[..m];
    }
  }

  /** Record `y` of any run that reaches year `y` is the record year `y`
      computes from the state the first `y - 1` years leave. */
  lemma {:induction false} RecordOfYear(c: Config, n: nat, y: nat)
    requires Valid(c) && 1 <= y <= n
    ensures Run(c, n).records[y - 1] == StepAt(c, y).record
  {
    RunPrefix(c, y, n);
    assert Run(c, n).records[y - 1] == Run(c, y).records[y - 1];
  }

  /** The report of an `n`-year run is numbered 1..n in order, without gaps. */
  lemma {:induction false} YearsNumbered(c: Config, n: nat)
    requires Valid(c)
    ensures |Run(c, n).records| == n
    ensures forall k :: 0 <= k < n ==> Run(c, n).records[k].year == k + 1
  {
    forall k | 0 <= k < n
      ensures Run(c, n).records[k].year == k + 1
    {
      RecordOfYear(c, n, k + 1);
    }
  }

  /** In every year the inventory that is served and costed is within capacity,
      and the year's culls are at least the excess over capacity. */
  lemma {:induction false} CapacityEveryYear(c: Config, n: nat)
    requires Valid(c)
    ensures forall k :: 0 <= k < n ==> Run(c, n).records[k].inventory <= c.capacity
    ensures forall k :: 0 <= k < n ==> StepAt(c, k + 1).excess <= Run(c, n).records[k].culls
  {
    forall k | 0 <= k < n
      ensures Run(c, n).records[k].inventory <= c.capacity
      ensures StepAt(c, k + 1).excess <= Run(c, n).records[k].culls
    {
      RecordOfYear(c, n, k + 1);
      HerdNonNegative(c, k);
      StepKeepsSound(c, k + 1, Run(c, k).state, StepAt(c, k + 1));
    }
  }

  /** The sum of the net flows of `records`, oldest first. */
  function TotalNetFlow(records: seq<YearRecord>): real
  {
    if |records| == 0 then 0.0
    else TotalNetFlow(records[..|records| - 1]) + records[|records| - 1].netFlow
  }

  /** The carried cash is the capital outlay plus every net flow so far. */
  lemma {:induction false} CashIsRunningSum(c: Config, n: nat)
    requires Valid(c)
    ensures Run(c, n).state.cash == -c.capex + TotalNetFlow(Run(c, n).records)
  {
    if n > 0 {
      CashIsRunningSum(c, n - 1);
      RunGrows(c, n);
      StepYearCash(c, n, Run(c, n - 1).state, StepAt(c, n));
      assert Run(c, n).records[..n - 1] == Run(c, n - 1).records;
    }
  }

  /** The cumulative cash reported for year `k + 1` is the capital outlay
      plus the net flows of years 1..k+1. */
  lemma {:induction false} CumulativeCashOfYear(c: Config, n: nat, k: nat)
    requires Valid(c) && k < n
    ensures Run(c, n).records[k].cumulativeCash == -c.capex + TotalNetFlow(Run(c, n).records[..k + 1])
  {
    RunPrefix(c, k + 1, n);
    CashIsRunningSum(c, k + 1);
    RunGrows(c, k + 1);
    StepYearCash(c, k + 1, Run(c, k).state, StepAt(c, k + 1));
  }

  /** The cohort queue after `n` years holds the female reserves of the last
      two years, oldest first, with empty slots before year 1. */
  lemma {:induction false} QueueHoldsLastCohorts(c: Config, n: nat)
    requires Valid(c)
    ensures n == 0 ==> Run(c, n).state.queue == [0.0, 0.0]
    ensures n == 1 ==> Run(c, n).state.queue == [0.0, Run(c, n).records[0].femalesReserved]
    ensures n >= 2 ==> Run(c, n).state.queue
                       == [Run(c, n).records[n - 2].femalesReserved, Run(c, n).records[n - 1].femalesReserved]
  {
    if n > 0 {
      QueueHoldsLastCohorts(c, n - 1);
      RunGrows(c, n);
      StepYearFacts(c, n, Run(c, n - 1).state, StepAt(c, n));
      if n >= 2 {
        assert Run(c, n).records[n - 2] == Run(c, n - 1).records[n - 2];
      }
    }
  }

  /** Year 1 takes in nothing: the starting herd is served as is (up to the
      clamp), nothing is released from the queue, no calves are born and no
      open cow is culled. */
  lemma FirstYear(c: Config)
    requires Valid(c)
    ensures StepAt(c, 1).intake == InitialInventory && StepAt(c, 1).released == 0.0
    ensures StepAt(c, 1).record.births == 0.0 && StepAt(c, 1).openCulls == 0.0
  {
    StepYearFacts(c, 1, Start(c), StepAt(c, 1));
  }

  /** From year 2 on, a year's intake is the herd the previous year kept, the
      females bought the previous year and the female reserve of two years
      earlier (none before year 3). */
  lemma {:induction false} IntakeOfYear(c: Config, y: nat)
    requires Valid(c) && y >= 2
    ensures StepAt(c, y).released == if y >= 3 then StepAt(c, y - 2).record.femalesReserved else 0.0
    ensures StepAt(c, y).intake
            == StepAt(c, y - 1).next.inventory + StepAt(c, y - 1).record.purchases as real + StepAt(c, y).released
  {
    var prev := Run(c, y - 1);
    QueueHoldsLastCohorts(c, y - 1);
    RunGrows(c, y - 1);
    StepYearFacts(c, y - 1, Run(c, y - 2).state, StepAt(c, y - 1));
    StepYearCash(c, y - 1, Run(c, y - 2).state, StepAt(c, y - 1));
    StepYearFacts(c, y, prev.state, StepAt(c, y));
    if y >= 3 {
      RecordOfYear(c, y - 1, y - 2);
    }
  }

  /** From year 2 on, the calves of a year are born from the pregnancies the
      previous year carried over: its new pregnancies less the ones culled for
      age. */
  lemma {:induction false} BirthsFromLastYear(c: Config, y: nat)
    requires Valid(c) && y >= 2
    ensures StepAt(c, y - 1).next.pending == StepAt(c, y - 1).breeding.pregnant - StepAt(c, y - 1).ageCulls
    ensures StepAt(c, y).calves == Calving(c, StepAt(c, y - 1).next.pending)
  {
    RunGrows(c, y - 1);
    StepYearFacts(c, y - 1, Run(c, y - 2).state, StepAt(c, y - 1));
    StepYearFacts(c, y, Run(c, y - 1).state, StepAt(c, y));
  }

  /** The carried state holds no negative head count. */
  predicate Sound(s: State) {
    && s.inventory >= 0.0 && s.pending >= 0.0
    && forall i :: 0 <= i < |s.queue| ==> s.queue[i] >= 0.0
  }

  /** One year keeps every head count non-negative, and the herd kept for
      next year is no larger than the one served. */
  lemma StepKeepsSound(c: Config, year: int, s: State, st: YearStep)
    requires Valid(c) && |s.queue| > 0 && Sound(s) && st == StepYear(c, year, s)
    ensures Sound(st.next)
    ensures 0.0 <= st.next.inventory <= st.record.inventory
    ensures st.record.births >= 0.0 && st.record.femalesReserved >= 0.0 && st.record.culls >= 0.0
    ensures st.record.culls >= st.excess
  {
    StepYearFacts(c, year, s, st);
    ServiceShares(c, st.record.inventory);
    var pregnant := st.breeding.pregnant;
    RateScales(pregnant, c.ageCullRate);
    assert st.ageCulls == pregnant * c.ageCullRate;
    assert 0.0 <= st.ageCulls <= pregnant;
    CalvingShares(c, s.pending);
    assert st.next.queue == s.queue[1..] + [st.record.femalesReserved];
  }

  /** No year of a run, however long, ever holds a negative number of
      females, pregnancies, reserved calves or culls. */
  lemma {:induction false} HerdNonNegative(c: Config, n: nat)
    requires Valid(c)
    ensures Sound(Run(c, n).state)
    ensures forall k :: 0 <= k < n ==>
      Run(c, n).records[k].inventory >= 0.0 && Run(c, n).records[k].births >= 0.0
      && Run(c, n).records[k].culls >= 0.0 && Run(c, n).records[k].femalesReserved >= 0.0
  {
    if n > 0 {
      HerdNonNegative(c, n - 1);
      RunGrows(c, n);
      StepKeepsSound(c, n, Run(c, n - 1).state, StepAt(c, n));
    }
  }

  /** Reinvestment never spends money it does not have: the cash spent is
      non-negative, at most the reinvested share of a positive flow, and less
      than one purchase price short of it. */
  lemma ReinvestWithinBudget(c: Config, flow: real, inventory: real)
    requires Valid(c)
    ensures Reinvest(c, flow, inventory).cash >= 0.0
    ensures flow > 0.0 && inventory < c.capacity ==>
      Reinvest(c, flow, inventory).cash <= flow * c.reinvestFraction
        < Reinvest(c, flow, inventory).cash + c.purchasePrice
  {
    if flow > 0.0 && inventory < c.capacity {
      WholeHeadBounds(flow, c.reinvestFraction, c.purchasePrice);
    }
  }

  /** In no year of a run does a non-positive operating flow, or a herd
      already at capacity, buy a female or spend cash on reinvestment; such a
      year's net flow is its whole operating flow. */
  lemma {:induction false} NoPurchaseWhenBlocked(c: Config, n: nat)
    requires Valid(c)
    ensures forall k :: 0 <= k < n ==>
      (Run(c, n).records[k].operatingFlow <= 0.0 || Run(c, n).records[k].inventory >= c.capacity ==>
        Run(c, n).records[k].purchases == 0 && Run(c, n).records[k].reinvested == 0.0
        && Run(c, n).records[k].netFlow == Run(c, n).records[k].operatingFlow)
  {
    forall k | 0 <= k < n
      ensures Run(c, n).records[k].operatingFlow <= 0.0 || Run(c, n).records[k].inventory >= c.capacity ==>
        Run(c, n).records[k].purchases == 0 && Run(c, n).records[k].reinvested == 0.0
        && Run(c, n).records[k].netFlow == Run(c, n).records[k].operatingFlow
    {
      RecordOfYear(c, n, k + 1);
      StepYearCash(c, k + 1, Run(c, k).state, StepAt(c, k + 1));
    }
  }

  /** With nothing reinvested, no female is ever bought and every year's net
      flow is its whole operating flow. */
  lemma {:induction false} NoReinvestmentNoPurchases(c: Config, n: nat)
    requires Valid(c) && c.reinvestFraction == 0.0
    ensures forall k :: 0 <= k < n ==>
      Run(c, n).records[k].purchases == 0 && Run(c, n).records[k].netFlow == Run(c, n).records[k].operatingFlow
  {
    forall k | 0 <= k < n
      ensures Run(c, n).records[k].purchases == 0
      ensures Run(c, n).records[k].netFlow == Run(c, n).records[k].operatingFlow
    {
      RecordOfYear(c, n, k + 1);
      var st := StepAt(c, k + 1);
      StepYearCash(c, k + 1, Run(c, k).state, st);
      var flow := st.record.operatingFlow;
      if flow > 0.0 && st.record.inventory < c.capacity {
        WholeHeadBounds(flow, c.reinvestFraction, c.purchasePrice);
      }
    }
  }

  /** With both pregnancy rates at zero no calf is ever born. */
  lemma {:induction false} NoServiceNoBirths(c: Config, n: nat)
    requires Valid(c) && c.firstServiceRate == 0.0 && c.followUpRate == 0.0
    ensures Run(c, n).state.pending == 0.0
    ensures forall k :: 0 <= k < n ==> Run(c, n).records[k].births == 0.0
  {
    if n > 0 {
      NoServiceNoBirths(c, n - 1);
      RunGrows(c, n);
      var st := StepAt(c, n);
      StepYearFacts(c, n, Run(c, n - 1).state, st);
      assert st.calves == Calving(c, 0.0);
      var served := st.record.inventory;
      assert st.breeding == Service(c, served);
      assert st.breeding.firstService == served * 0.0 == 0.0;
      assert st.breeding.followUp == (served - 0.0) * 0.0 == 0.0;
      var pregnant := st.breeding.pregnant;
      assert st.ageCulls == pregnant * c.ageCullRate == 0.0;
    }
  }
}
