/** The yearly herd and cash projection: a state machine stepped once per year
    in a fixed phase order (intake, capacity clamp, births, breeding, culling,
    revenue and expense, reinvestment, cash accounting). `StepYear` is one
    year as a function of the carried state, `Run` folds it over the horizon,
    `AdvanceYear` is one pass of the loop body and `SimularProyecto` the
    stepping loop itself, proved to emit exactly the records `Run` describes. */
module Engine {
  import opened HerdConfig

  /** Breeding females every projection starts with. */
  const InitialInventory: real := 500.0

  /** What the loop carries from one year to the next. */
  datatype State = State(
    inventory: real,     // breeding females at the start of the year, before intake
    pending: real,       // pregnancies that calve this year
    purchases: nat,      // females bought last year, joining the herd this year
    queue: seq<real>,    // female calves reserved two and one years ago, oldest first
    cash: real           // cumulative cash, capital outlay included
  )

  /** One emitted line of the projection report. Head counts are kept exact;
      the report's truncation to whole animals is presentation only. */
  datatype YearRecord = YearRecord(
    year: int,
    inventory: real,        // breeding females served this year (after the clamp)
    births: real,
    culls: real,            // head culled and sold this year
    purchases: nat,         // females bought, joining next year
    femalesReserved: real,  // female calves kept, joining in two years
    revenue: real,
    opex: real,
    operatingFlow: real,
    reinvested: real,
    netFlow: real,          // cash flow to the owners
    cumulativeCash: real
  )

  /** The state before year 1: the starting herd, nothing pending, an empty
      two-slot cohort queue and the capital outlay already paid. */
  function Start(c: Config): State {
    State(InitialInventory, 0.0, 0, [0.0, 0.0], -c.capex)
  }

  /** The capacity clamp: the inventory kept and the excess sold off. */
  datatype Clamped = Clamped(inventory: real, excess: real)

  function Clamp(intake: real, capacity: real): (r: Clamped)
    ensures r.inventory <= capacity && r.excess >= 0.0
    ensures r.inventory + r.excess == intake
    ensures r.excess > 0.0 ==> r.inventory == capacity
    ensures intake <= capacity ==> r.excess == 0.0
  {
    if intake > capacity then Clamped(capacity, intake - capacity) else Clamped(intake, 0.0)
  }

  /** The calves of one year: born from last year's pregnancies, weaned, and
      split evenly into males sold at weaning and females kept as replacements. */
  datatype Calves = Calves(births: real, weaned: real, males: real, females: real)

  function Calving(c: Config, pending: real): (k: Calves)
    ensures k.males + k.females == k.weaned && k.males == k.females
  {
    var births := pending * (1.0 - c.gestationLoss);
    var weaned := births * (1.0 - c.calfMortality);
    Calves(births, weaned, weaned * 0.5, weaned * 0.5)
  }

  /** Losses only shrink a crop: no more calves are weaned than are born,
      and no more are born than there were pregnancies. */
  lemma CalvingShares(c: Config, pending: real)
    requires IsRate(c.gestationLoss) && IsRate(c.calfMortality) && pending >= 0.0
    ensures 0.0 <= Calving(c, pending).weaned <= Calving(c, pending).births <= pending
  {
    var births := Calving(c, pending).births;
    RateScales(pending, 1.0 - c.gestationLoss);
    RateScales(births, 1.0 - c.calfMortality);
  }

  /** One breeding season: every female gets a first service, the ones still
      open get a follow-up service. */
  datatype Breeding = Breeding(firstService: real, followUp: real, pregnant: real, open: real)

  function Service(c: Config, inventory: real): (b: Breeding)
    ensures b.pregnant == b.firstService + b.followUp
    ensures b.pregnant + b.open == inventory
  {
    var first := inventory * c.firstServiceRate;
    var followUp := (inventory - first) * c.followUpRate;
    Breeding(first, followUp, first + followUp, inventory - (first + followUp))
  }

  /** A share of a non-negative quantity lies between nothing and all of it. */
  lemma RateScales(x: real, r: real)
    requires x >= 0.0 && IsRate(r)
    ensures 0.0 <= x * r <= x
  {
  }

  /** The two services together make pregnant the share
      r1 + (1 - r1) * r2 of the females served, never more than all of them. */
  lemma ServiceShares(c: Config, inventory: real)
    requires IsRate(c.firstServiceRate) && IsRate(c.followUpRate) && inventory >= 0.0
    ensures Service(c, inventory).pregnant
            == inventory * (c.firstServiceRate + (1.0 - c.firstServiceRate) * c.followUpRate)
    ensures 0.0 <= Service(c, inventory).pregnant <= inventory
    ensures Service(c, inventory).open >= 0.0
  {
    var b := Service(c, inventory);
    var first, rest := b.firstService, inventory - b.firstService;
    RateScales(inventory, c.firstServiceRate);
    assert 0.0 <= first <= inventory;
    RateScales(rest, c.followUpRate);
    assert b.followUp == rest * c.followUpRate;
    assert 0.0 <= b.followUp <= rest;
  }

  /** The year's operating accounts. */
  datatype Accounts = Accounts(revenue: real, opex: real, flow: real)

  /** Revenue is the male calves sold at weaning weight and price plus the
      culled cows at cull weight and price; the operating expense is the fixed
      overhead plus the variable and service costs of every female served. */
  function Accounting(c: Config, malesSold: real, culls: real, inventory: real): (a: Accounts)
    ensures a.flow == a.revenue - a.opex
    ensures Valid(c) && malesSold >= 0.0 && culls >= 0.0 && inventory >= 0.0 ==>
      a.revenue >= 0.0 && a.opex >= c.fixedCosts
  {
    var revenue := malesSold * c.weanlingWeight * c.weanlingPrice + culls * c.cullWeight * c.cullPrice;
    var opex := c.fixedCosts + inventory * c.variableCost + inventory * c.serviceCost;
    Accounts(revenue, opex, revenue - opex)
  }

  /** The number of whole females that the share `fraction` of a
      non-negative cash flow buys at `price` each: the floor of the share over
      the price (bracketed in WholeHeadBounds). */
  function WholeHead(flow: real, fraction: real, price: real): nat
    requires flow >= 0.0 && fraction >= 0.0 && price > 0.0
  {
    NonNegativeProduct(flow, fraction);
    assert flow * fraction / price >= 0.0;
    (flow * fraction / price).Floor
  }

  /** The whole number of females bought is the largest one the share pays for. */
  lemma WholeHeadBounds(flow: real, fraction: real, price: real)
    requires flow >= 0.0 && fraction >= 0.0 && price > 0.0
    ensures WholeHead(flow, fraction, price) as real * price <= flow * fraction
    ensures flow * fraction < (WholeHead(flow, fraction, price) as real + 1.0) * price
  {
    NonNegativeProduct(flow, fraction);
    FloorOfQuotient(flow * fraction, price);
  }

  lemma NonNegativeProduct(a: real, b: real)
    requires a >= 0.0 && b >= 0.0
    ensures a * b >= 0.0
  {
  }

  /** The floor of a non-negative quotient, bracketed by its definition. */
  lemma FloorOfQuotient(x: real, p: real)
    requires x >= 0.0 && p > 0.0
    ensures (x / p).Floor >= 0
    ensures (x / p).Floor as real * p <= x < ((x / p).Floor as real + 1.0) * p
  {
    var q := x / p;
    var f := q.Floor as real;
    assert q * p == x;
    assert f <= q;
    assert q < f + 1.0;
    MultiplyPreservesOrder(f, q, p);
    MultiplyPreservesOrder(q, f + 1.0, p);
    assert x < (f + 1.0) * p;
  }

  lemma MultiplyPreservesOrder(a: real, b: real, p: real)
    requires a <= b && p > 0.0
    ensures a * p <= b * p && (a < b ==> a * p < b * p)
  {
  }

  /** Purchases funded by this year's operating cash flow, and the cash they cost. */
  datatype Reinvestment = Reinvestment(purchases: nat, cash: real)

  /** The reinvestment rule: nothing is bought when the operating cash flow is
      not positive or the herd is already at capacity; otherwise the reinvested
      share of the flow buys as many whole females as it pays for. */
  function Reinvest(c: Config, flow: real, inventory: real): (r: Reinvestment)
    requires Valid(c)
    ensures r.cash == r.purchases as real * c.purchasePrice
    ensures flow <= 0.0 || inventory >= c.capacity ==> r.purchases == 0 && r.cash == 0.0
    ensures flow > 0.0 && inventory < c.capacity ==>
      r.purchases == WholeHead(flow, c.reinvestFraction, c.purchasePrice)
  {
    if flow > 0.0 && inventory < c.capacity then
      var purchases := WholeHead(flow, c.reinvestFraction, c.purchasePrice);
      Reinvestment(purchases, purchases as real * c.purchasePrice)
    else
      Reinvestment(0, 0.0)
  }

  /** Every quantity one year's phase sequence computes. */
  datatype YearStep = YearStep(
    released: real,        // the cohort popped from the front of the queue
    intake: real,          // inventory after intake, before the clamp
    excess: real,          // head over capacity, culled at once
    calves: Calves,
    breeding: Breeding,
    openCulls: real,
    ageCulls: real,
    record: YearRecord,
    next: State
  )

  /** Year `year` run from state `s`. The ending inventory is the clamped
      inventory less the open-cow and age culls: the clamp excess has already
      left the herd at the clamp (HerdFindings.EndingInventoryAsWritten is
      the source's formula, which takes it out a second time). What the year
      computes is stated in StepYearFacts. */
  function StepYear(c: Config, year: int, s: State): (st: YearStep)
    requires Valid(c) && |s.queue| > 0
    ensures |st.next.queue| == |s.queue|
  {
    var released := s.queue[0];
    var intake := if year > 1 then s.inventory + s.purchases as real + released else s.inventory;
    var clamped := Clamp(intake, c.capacity);
    var inventory := clamped.inventory;
    var calves := Calving(c, s.pending);
    var bred := Service(c, inventory);
    var openCulls := if year == 1 then 0.0 else bred.open;
    var ageCulls := bred.pregnant * c.ageCullRate;
    var culls := openCulls + ageCulls + clamped.excess;
    var accounts := Accounting(c, calves.males, culls, inventory);
    var reinvestment := Reinvest(c, accounts.flow, inventory);
    var netFlow := accounts.flow - reinvestment.cash;
    var cash := s.cash + netFlow;
    var record := YearRecord(year, inventory, calves.births, culls, reinvestment.purchases,
                             calves.females, accounts.revenue, accounts.opex, accounts.flow,
                             reinvestment.cash, netFlow, cash);
    var next := State(inventory - openCulls - ageCulls, bred.pregnant - ageCulls,
                      reinvestment.purchases, s.queue[1..] + [calves.females], cash);
    YearStep(released, intake, clamped.excess, calves, bred, openCulls, ageCulls, record, next)
  }

  /** What year `year` does to the herd, phase by phase: the intake, the
      clamp to capacity, the births and the female reserve queued for two
      years, breeding of the clamped inventory, the culls (open cows spared in
      year 1) and the conservation of head. */
  lemma StepYearFacts(c: Config, year: int, s: State, st: YearStep)
    requires Valid(c) && |s.queue| > 0 && st == StepYear(c, year, s)
    // intake: the oldest cohort and last year's purchases join after year 1
    ensures st.released == s.queue[0]
    ensures st.intake == if year > 1 then s.inventory + s.purchases as real + st.released else s.inventory
    // capacity clamp: the excess is culled this year
    ensures st.record.inventory <= c.capacity
    ensures st.record.inventory + st.excess == st.intake && st.excess >= 0.0
    ensures st.excess > 0.0 ==> st.record.inventory == c.capacity
    // births: the female reserve goes to the back of the queue
    ensures st.calves == Calving(c, s.pending) && st.record.births == st.calves.births
    ensures st.calves.males + st.record.femalesReserved == st.calves.weaned
    ensures st.next.queue == s.queue[1..] + [st.record.femalesReserved]
    // breeding of the clamped inventory
    ensures st.breeding == Service(c, st.record.inventory)
    ensures st.breeding.pregnant + st.breeding.open == st.record.inventory
    // culling: a grace year for open cows, then every open cow goes
    ensures year == 1 ==> st.openCulls == 0.0
    ensures year != 1 ==> st.openCulls == st.breeding.open
    ensures st.ageCulls == st.breeding.pregnant * c.ageCullRate
    ensures st.record.culls == st.openCulls + st.ageCulls + st.excess
    ensures st.next.pending == st.breeding.pregnant - st.ageCulls
    // every head at intake is either kept for next year or culled
    ensures st.intake == st.next.inventory + st.record.culls
    ensures st.record.year == year
  {
  }

  /** What year `year` does to the cash: the operating accounts of the
      served herd and of the year's sales, the reinvestment rule, the purchases
      carried to next year and the running cash. */
  lemma StepYearCash(c: Config, year: int, s: State, st: YearStep)
    requires Valid(c) && |s.queue| > 0 && st == StepYear(c, year, s)
    ensures Accounts(st.record.revenue, st.record.opex, st.record.operatingFlow)
            == Accounting(c, st.calves.males, st.record.culls, st.record.inventory)
    ensures st.record.operatingFlow == st.record.revenue - st.record.opex
    ensures Reinvestment(st.record.purchases, st.record.reinvested)
            == Reinvest(c, st.record.operatingFlow, st.record.inventory)
    ensures st.next.purchases == st.record.purchases
    ensures st.record.netFlow == st.record.operatingFlow - st.record.reinvested
    ensures st.record.cumulativeCash == s.cash + st.record.netFlow == st.next.cash
  {
  }

  /** The state after `n` years and the report of those years. */
  datatype Projection = Projection(state: State, records: seq<YearRecord>)

  /** The projection over `n` years: `StepYear` folded over years 1..n. */
  function Run(c: Config, n: nat): (p: Projection)
    requires Valid(c)
    ensures |p.records| == n
    ensures |p.state.queue| == 2
    decreases n, 1
  {
    if n == 0 then Projection(Start(c), [])
    else
      var st := StepAt(c, n);
      Projection(st.next, Run(c, n - 1).records + [st.record])
  }

  /** The full phase breakdown of year `y`: `StepYear` from the state the
      first `y - 1` years leave. */
  function StepAt(c: Config, y: nat): (st: YearStep)
    requires Valid(c) && y >= 1
    ensures |st.next.queue| == 2
    decreases y, 0
  {
    StepYear(c, y, Run(c, y - 1).state)
  }

  /** One pass of the loop body: the year's phases applied in order to the
      carried state, the cohort queue popped at the front and appended at the
      back. */
  method AdvanceYear(c: Config, year: int, s: State) returns (next: State, record: YearRecord)
    requires Valid(c) && |s.queue| > 0
    ensures next == StepYear(c, year, s).next && record == StepYear(c, year, s).record
  {
    ghost var st := StepYear(c, year, s);
    var queue := s.queue;
    var inventory := s.inventory;
    var pending := s.pending;
    var cash := s.cash;
    // intake: the oldest cohort leaves the front of the queue
    var released := queue[0];
    queue := queue[1..];
    if year > 1 {
      inventory := inventory + (s.purchases as real + released);
    }
    // capacity clamp
    var excess := 0.0;
    if inventory > c.capacity {
      excess := inventory - c.capacity;
      inventory := c.capacity;
    }
    assert inventory == st.record.inventory && excess == st.excess;
    // births: the female reserve joins the back of the queue
    var calves := Calving(c, pending);
    queue := queue + [calves.females];
    assert calves == st.calves;
    // breeding
    var bred := Service(c, inventory);
    assert bred == st.breeding;
    // culling: open cows are spared in year 1
    var openCulls := 0.0;
    if year != 1 {
      openCulls := bred.open;
    }
    var ageCulls := bred.pregnant * c.ageCullRate;
    assert openCulls == st.openCulls && ageCulls == st.ageCulls;
    var culls := openCulls + ageCulls + excess;
    pending := bred.pregnant - ageCulls;
    // revenue and expense
    var accounts := Accounting(c, calves.males, culls, inventory);
    // reinvestment, funded from a positive flow while below capacity
    var reinvestment := Reinvest(c, accounts.flow, inventory);
    // cash accounting
    var netFlow := accounts.flow - reinvestment.cash;
    cash := cash + netFlow;
    record := YearRecord(year, inventory, calves.births, culls, reinvestment.purchases,
                         calves.females, accounts.revenue, accounts.opex, accounts.flow,
                         reinvestment.cash, netFlow, cash);
    next := State(inventory - openCulls - ageCulls, pending, reinvestment.purchases, queue, cash);
    assert culls == st.record.culls;
    assert accounts.flow == st.record.operatingFlow && reinvestment.purchases == st.record.purchases;
  }

  /** Each year appends exactly one record and moves the state one step. */
  lemma RunGrows(c: Config, n: nat)
    requires Valid(c) && n >= 1
    ensures Run(c, n).records == Run(c, n - 1).records + [StepAt(c, n).record]
    ensures Run(c, n).state == StepAt(c, n).next
  {
  }

  /** The projection loop: the carried state is updated once per year and
      each year appends one record to the report. A horizon below 1 yields an
      empty report. */
  method SimularProyecto(years: int, c: Config) returns (report: seq<YearRecord>)
    requires Valid(c)
    ensures |report| == if years < 0 then 0 else years
    ensures report == Run(c, |report|).records
  {
    var state := Start(c);
    report := [];
    var year := 1;
    while year <= years
      invariant 1 <= year && (years < 0 ==> year == 1) && (years >= 0 ==> year <= years + 1)
      invariant Run(c, year - 1) == Projection(state, report)
    {
      var record;
      state, record := AdvanceYear(c, year, state);
      RunGrows(c, year);
      report := report + [record];
      year := year + 1;
    }
  }
}
