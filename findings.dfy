/** The ending inventory of the source's yearly loop, as written, next to the
    one the model uses. The source clamps the herd to capacity (the excess is
    culled and sold at once) and then computes next year's herd as the clamped
    herd less all of the year's culls, the excess included, so the excess
    leaves the herd twice. */
module HerdFindings {
  import opened HerdConfig
  import opened Engine
  import opened HerdProperties

  /** The ending inventory as the source computes it: the clamped inventory
      less every head culled this year, the clamp excess included. */
  function EndingInventoryAsWritten(st: YearStep): (r: real)
    ensures r + st.record.culls == st.record.inventory
  {
    st.record.inventory - st.record.culls
  }

  /** From the same carried state, the source's formula lands exactly one
      clamp excess below the model's ending inventory, and the two agree
      exactly when that year has no excess. After a year with an excess the
      carried states differ, so every later year differs too. */
  lemma AsWrittenRemovesExcessTwice(c: Config, year: int, s: State, st: YearStep)
    requires Valid(c) && |s.queue| > 0 && st == StepYear(c, year, s)
    ensures EndingInventoryAsWritten(st) == st.next.inventory - st.excess
    ensures EndingInventoryAsWritten(st) == st.next.inventory <==> st.excess == 0.0
  {
    StepYearFacts(c, year, s, st);
  }

  /** Whenever the capacity is below half the starting herd, year 1 already
      shows the fault: the source's formula leaves a negative herd and loses
      the conservation of head, while the model keeps a non-negative herd with
      intake equal to what is kept plus what is culled. */
  lemma AsWrittenGoesNegative(c: Config)
    requires Valid(c) && c.capacity < InitialInventory / 2.0
    ensures StepAt(c, 1).excess == InitialInventory - c.capacity
    ensures EndingInventoryAsWritten(StepAt(c, 1)) < 0.0 <= StepAt(c, 1).next.inventory
    ensures EndingInventoryAsWritten(StepAt(c, 1)) + StepAt(c, 1).record.culls != StepAt(c, 1).intake
    ensures StepAt(c, 1).next.inventory + StepAt(c, 1).record.culls == StepAt(c, 1).intake
  {
    var st := StepAt(c, 1);
    FirstYear(c);
    StepYearFacts(c, 1, Start(c), st);
    StepKeepsSound(c, 1, Start(c), st);
    AsWrittenRemovesExcessTwice(c, 1, Start(c), st);
  }

  /** A capacity of 200 females, which the capacity input accepts, on top of
      the default parameters makes the source's year-1 ending herd negative. */
  lemma CapacityTwoHundredGoesNegative()
    ensures var c := WithOverrides(NewConfig("Realista"), Overrides(0.50, 0.04, 2.6, 45000.0, 120000.0, 200.0));
            Valid(c) && EndingInventoryAsWritten(StepAt(c, 1)) < 0.0
  {
    var c := WithOverrides(NewConfig("Realista"), Overrides(0.50, 0.04, 2.6, 45000.0, 120000.0, 200.0));
    AsWrittenGoesNegative(c);
  }
}
