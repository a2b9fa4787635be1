/** The parameter record of the projection: prices, weights, costs, biological
    rates and strategy coefficients, with the default values and the one-time
    stress factors of the adverse ("Pesimista") preset. */
module HerdConfig {

  /** Every coefficient the yearly simulation reads. Monetary amounts are in
      one currency unit, weights in kg, rates are fractions. */
  datatype Config = Config(
    weanlingPrice: real,      // price per kg of a weaned male calf
    cullPrice: real,          // price per kg of a culled cow
    weanlingWeight: real,     // kg per weaned male calf
    cullWeight: real,         // kg per culled cow
    variableCost: real,       // yearly variable cost per breeding female
    serviceCost: real,        // yearly first-service (IATF) cost per breeding female
    fixedCosts: real,         // fixed yearly overhead
    purchasePrice: real,      // price of one replacement female
    capex: real,              // infrastructure outlay paid before year 1
    firstServiceRate: real,   // pregnancy rate of the first service (IATF)
    followUpRate: real,       // pregnancy rate of the follow-up service (bull)
    gestationLoss: real,      // fraction of pregnancies lost before calving
    calfMortality: real,      // fraction of calves dying before weaning
    ageCullRate: real,        // fraction of newly pregnant cows culled for age
    reinvestFraction: real,   // share of positive operating cash flow reinvested
    capacity: real            // maximum number of breeding females
  )

  /** The stress factor the adverse preset applies once, at construction. */
  const StressFactor: real := 0.85

  /** The name of the adverse preset. */
  const Pessimistic: string := "Pesimista"

  predicate IsRate(x: real) {
    0.0 <= x <= 1.0
  }

  /** The parameter ranges the simulation is meant for: every rate in [0, 1],
      prices, weights and costs non-negative, a positive purchase price (it is
      a divisor) and a positive capacity. */
  predicate Valid(c: Config) {
    && c.weanlingPrice >= 0.0 && c.cullPrice >= 0.0
    && c.weanlingWeight >= 0.0 && c.cullWeight >= 0.0
    && c.variableCost >= 0.0 && c.serviceCost >= 0.0 && c.fixedCosts >= 0.0
    && c.purchasePrice > 0.0 && c.capex >= 0.0
    && IsRate(c.firstServiceRate) && IsRate(c.followUpRate)
    && IsRate(c.gestationLoss) && IsRate(c.calfMortality) && IsRate(c.ageCullRate)
    && IsRate(c.reinvestFraction)
    && c.capacity > 0.0
  }

  /** The values every configuration starts from. */
  function Defaults(): Config {
    Config(
      weanlingPrice := 2.6, cullPrice := 2.4,
      weanlingWeight := 210.0, cullWeight := 450.0,
      variableCost := 100.0, serviceCost := 120.0, fixedCosts := 45000.0,
      purchasePrice := 1000.0, capex := 120000.0,
      firstServiceRate := 0.50, followUpRate := 0.50,
      gestationLoss := 0.05, calfMortality := 0.04, ageCullRate := 0.03,
      reinvestFraction := 0.70, capacity := 1500.0)
  }

  /** Construction from a scenario name: the defaults, and under the adverse
      preset the weanling price and the first-service pregnancy rate are
      multiplied once by the stress factor. Any other name keeps the defaults. */
  function NewConfig(scenario: string): (c: Config)
    ensures Valid(c)
    ensures scenario != Pessimistic ==> c == Defaults()
    ensures scenario == Pessimistic ==>
      && c.weanlingPrice == StressFactor * Defaults().weanlingPrice
      && c.firstServiceRate == StressFactor * Defaults().firstServiceRate
      && c == Defaults().(weanlingPrice := c.weanlingPrice, firstServiceRate := c.firstServiceRate)
  {
    var base := Defaults();
    if scenario == Pessimistic then
      base.(weanlingPrice := base.weanlingPrice * StressFactor,
            firstServiceRate := base.firstServiceRate * StressFactor)
    else
      base
  }

  /** The values a user sets directly on a constructed configuration. */
  datatype Overrides = Overrides(
    firstServiceRate: real,
    calfMortality: real,
    weanlingPrice: real,
    fixedCosts: real,
    capex: real,
    capacity: real
  )

  /** Overwriting six fields after construction: each override replaces the
      field outright (a preset's stress factor on that field is discarded) and
      every other field keeps its value. */
  function WithOverrides(c: Config, o: Overrides): (r: Config)
    ensures r.firstServiceRate == o.firstServiceRate && r.calfMortality == o.calfMortality
    ensures r.weanlingPrice == o.weanlingPrice && r.fixedCosts == o.fixedCosts
    ensures r.capex == o.capex && r.capacity == o.capacity
    ensures r.(firstServiceRate := c.firstServiceRate, calfMortality := c.calfMortality,
               weanlingPrice := c.weanlingPrice, fixedCosts := c.fixedCosts,
               capex := c.capex, capacity := c.capacity) == c
    ensures Valid(c) && IsRate(o.firstServiceRate) && IsRate(o.calfMortality)
            && o.weanlingPrice >= 0.0 && o.fixedCosts >= 0.0 && o.capex >= 0.0 && o.capacity > 0.0
            ==> Valid(r)
  {
    c.(firstServiceRate := o.firstServiceRate, calfMortality := o.calfMortality,
       weanlingPrice := o.weanlingPrice, fixedCosts := o.fixedCosts,
       capex := o.capex, capacity := o.capacity)
  }

  /** The adverse preset only touches fields that the overrides replace, so
      once the overrides are applied the chosen preset makes no difference. */
  lemma OverrideErasesPreset(o: Overrides)
    ensures WithOverrides(NewConfig(Pessimistic), o) == WithOverrides(NewConfig("Realista"), o)
  {
  }
}
