/** The allocation model: the stock / bond / inflation-protected split of a
    portfolio, either from a glide path towards a retirement year or given directly,
    and its division into nine per-fund percentages. Percentages are `real`. */
module Asset {
  import opened Wrappers
  import opened Errors

  // Fixed fractions of the stock and bond percentages given to each fund.
  // US stock is 2/3 of all stock, split evenly over large, mid and small cap.
  const UsStockFraction: real := 2.0 / 3.0
  const EachUsStock: real := UsStockFraction / 3.0
  // International stock is 1/3 of all stock: 1/3 of that emerging markets, 2/3 total international.
  const IntStockFraction: real := 1.0 / 3.0
  const IntEmerging: real := IntStockFraction / 3.0
  const IntTotal: real := IntStockFraction * 2.0 / 3.0
  // US bonds are 2/3 of all bonds, split evenly over corporate and total; 1/3 international.
  const UsBondFraction: real := 2.0 / 3.0
  const UsCorpBondFraction: real := UsBondFraction / 2.0
  const UsTotBondFraction: real := UsBondFraction / 2.0
  const IntBondFraction: real := 1.0 / 3.0

  /** Stock, bond and inflation-protected percentages. */
  datatype Allocations = Allocations(totalStock: real, totalBond: real, totalInflationProtected: real)

  function Total(a: Allocations): real {
    a.totalStock + a.totalBond + a.totalInflationProtected
  }

  /** The invariant every successfully built allocation keeps. */
  predicate Valid(a: Allocations) {
    Total(a) == 100.0
  }

  /** The default allocation, 60% stock and 40% bond. */
  function NewAllocations(): (a: Allocations)
    ensures Valid(a)
    ensures a.totalStock == 60.0 && a.totalBond == 40.0 && a.totalInflationProtected == 0.0
  {
    Allocations(60.0, 40.0, 0.0)
  }

  /** The glide-path schedule as a function of whole years to retirement. */
  function GlidePath(yearsToRetirement: int): (a: Allocations)
    ensures Valid(a)
    ensures 0.0 <= a.totalStock <= 100.0 && 0.0 <= a.totalBond <= 100.0
    ensures 0.0 <= a.totalInflationProtected <= 18.0
  {
    var y := yearsToRetirement as real;
    if 5.0 <= y < 30.0 then
      var stock := 90.0 - 1.5 * (25.0 - y);
      Allocations(stock, 100.0 - stock, 0.0)
    else if -5.0 <= y < 5.0 then
      var stock := 60.0 - (-2.8 * (y - 5.0));
      var inflation := -1.8 * (y - 5.0);
      Allocations(stock, 100.0 - stock - inflation, inflation)
    else if y < -5.0 then
      Allocations(29.0, 53.0, 18.0)
    else
      Allocations(90.0, 10.0, 0.0)
  }

  /** The allocation for a retirement year; `thisYear` stands for the wall-clock
      year the source reads. Fails exactly when the year lies outside [2000, 3000). */
  function Retirement(year: int, thisYear: int): (r: Result<Allocations, Error>)
    ensures r.Success? <==> 2000 <= year < 3000
    ensures r.Success? ==> Valid(r.value) && r.value == GlidePath(year - thisYear)
    ensures r.Failure? ==> r.error == YearOutOfRange(year)
  {
    if !(2000 <= year < 3000) then Failure(YearOutOfRange(year))
    else Success(GlidePath(year - thisYear))
  }

  /** An allocation from caller-given percentages; fails unless they sum to 100. */
  function Custom(totalStock: real, totalBond: real, totalInflationProtected: real): (r: Result<Allocations, Error>)
    ensures r.Success? <==> totalStock + totalBond + totalInflationProtected == 100.0
    ensures r.Success? ==> Valid(r.value)
    ensures r.Success? ==> r.value.totalStock == totalStock && r.value.totalBond == totalBond
                           && r.value.totalInflationProtected == totalInflationProtected
    ensures r.Failure? ==> r.error == AllocationSumNot100(totalStock, totalBond, totalInflationProtected)
  {
    if totalStock + totalBond + totalInflationProtected == 100.0 then
      Success(Allocations(totalStock, totalBond, totalInflationProtected))
    else
      Failure(AllocationSumNot100(totalStock, totalBond, totalInflationProtected))
  }

  /** Percentages for each of the nine funds. */
  datatype SubAllocations = SubAllocations(
    usStockLarge: real,
    usStockMid: real,
    usStockSmall: real,
    usTotBond: real,
    usCorpBond: real,
    intTotStock: real,
    intEmergingStock: real,
    intBond: real,
    inflationProtected: real)

  function StockPart(s: SubAllocations): real {
    s.usStockLarge + s.usStockMid + s.usStockSmall + s.intTotStock + s.intEmergingStock
  }

  function BondPart(s: SubAllocations): real {
    s.usTotBond + s.usCorpBond + s.intBond
  }

  function SubTotal(s: SubAllocations): real {
    s.usStockLarge + s.usStockMid + s.usStockSmall + s.usTotBond + s.usCorpBond
    + s.intTotStock + s.intEmergingStock + s.intBond + s.inflationProtected
  }

  /** Splits an allocation into nine fund percentages by the fixed fractions. The
      stock funds share the stock percentage (large = mid = small = total
      international, emerging half of each), the bond funds share the bond
      percentage equally, inflation-protected passes through. The defensive sum
      check fails only when the three parts do not sum into [99.9, 100.1). */
  function NewCustom(a: Allocations): (r: Result<SubAllocations, Error>)
    ensures r.Success? <==> 99.9 <= Total(a) < 100.1
    ensures Valid(a) ==> r.Success?
    ensures r.Success? ==>
      var s := r.value;
      && StockPart(s) == a.totalStock
      && BondPart(s) == a.totalBond
      && s.inflationProtected == a.totalInflationProtected
      && SubTotal(s) == Total(a)
      && s.usStockLarge == s.usStockMid == s.usStockSmall == s.intTotStock
      && s.intEmergingStock * 2.0 == s.intTotStock
      && s.usTotBond == s.usCorpBond == s.intBond
    ensures r.Failure? ==> r.error.SubAllocationSumOff?
  {
    var s := SubAllocations(
      a.totalStock * EachUsStock,
      a.totalStock * EachUsStock,
      a.totalStock * EachUsStock,
      a.totalBond * UsTotBondFraction,
      a.totalBond * UsCorpBondFraction,
      a.totalStock * IntTotal,
      a.totalStock * IntEmerging,
      a.totalBond * IntBondFraction,
      a.totalInflationProtected);
    assert UsTotBondFraction == UsCorpBondFraction == IntBondFraction == 1.0 / 3.0;
    assert EachUsStock == IntTotal == 2.0 / 9.0 && IntEmerging == 1.0 / 9.0;
    var sum := SubTotal(s);
    assert sum == Total(a);
    if 99.9 <= sum < 100.1 then Success(s) else Failure(SubAllocationSumOff(sum))
  }

  /** The default sub-allocation, the split of 60% stock and 40% bond. */
  function NewSubAllocations(): (r: Result<SubAllocations, Error>)
    ensures r.Success?
    ensures r.value.usStockLarge == 40.0 / 3.0 && r.value.intEmergingStock == 20.0 / 3.0
    ensures r.value.usTotBond == 40.0 / 3.0 && r.value.inflationProtected == 0.0
  {
    NewCustom(NewAllocations())
  }

  /** Every successful glide-path allocation splits into a sub-allocation whose nine
      percentages sum to exactly 100. */
  lemma RetirementSplits(year: int, thisYear: int)
    requires Retirement(year, thisYear).Success?
    ensures NewCustom(Retirement(year, thisYear).value).Success?
    ensures SubTotal(NewCustom(Retirement(year, thisYear).value).value) == 100.0
  {
  }

  /** The two concrete glide-path points: ten years out gives 67.5/32.5/0, the
      retirement year itself gives 46/45/9. */
  lemma GlidePathExamples()
    ensures GlidePath(10) == Allocations(67.5, 32.5, 0.0)
    ensures GlidePath(0) == Allocations(46.0, 45.0, 9.0)
    ensures GlidePath(-6) == Allocations(29.0, 53.0, 18.0)
    ensures GlidePath(30) == Allocations(90.0, 10.0, 0.0)
  {
  }

  /** Between five years after and thirty years before retirement the stock share
      never falls as the retirement year moves further away. */
  lemma {:induction false} GlidePathStockMonotone(y1: int, y2: int)
    requires -5 <= y1 <= y2 < 30
    ensures GlidePath(y1).totalStock <= GlidePath(y2).totalStock
  {
    if y1 < 5 && 5 <= y2 {
      assert GlidePath(y1).totalStock <= 60.0;
      assert GlidePath(y2).totalStock >= 60.0;
    }
  }

  /** The two linear pieces meet at five years to retirement (60/40/0), and the
      schedule is not monotone where the first piece ends: 29 years out the stock
      share is 96, above the 90 used from 30 years out on. */
  lemma GlidePathJoins()
    ensures GlidePath(5) == Allocations(60.0, 40.0, 0.0)
    ensures GlidePath(29).totalStock == 96.0 && GlidePath(30).totalStock == 90.0
  {
  }
}
