/** The rebalance engine: the stand-alone brokerage calculation, the pooled
    retirement calculation with its risk-location walk, the entry point that
    routes between them, and the minimum-distribution lookup. */
module Calc {
  import opened Wrappers
  import opened Errors
  import opened Asset
  import opened Holdings

  /** The nine funds from riskiest to safest; the tax-free account is filled in
      this order, the pooled brokerage account in the reverse one. */
  const HighToLowRisk: seq<StockSymbol> := [VWO, VXUS, VB, VO, VV, BNDX, BND, VTC, VTIP]

  /** The same funds, safest first: the risk order walked backwards. */
  const LowToHighRisk: seq<StockSymbol> := [VTIP, VTC, BND, BNDX, VV, VO, VB, VXUS, VWO]

  function Reverse<T>(s: seq<T>): (r: seq<T>)
    ensures |r| == |s| && forall i :: 0 <= i < |s| ==> r[i] == s[|s| - 1 - i]
  {
    if s == [] then [] else Reverse(s[1..]) + [s[0]]
  }

  /** An order of distinct funds: known symbols, each in a slot of its own. */
  predicate FundOrder(order: seq<StockSymbol>) {
    && (forall i :: 0 <= i < |order| ==> IsKnown(order[i]))
    && (forall i, j :: 0 <= i < j < |order| ==> SlotOf(order[i]) != SlotOf(order[j]))
  }

  /** The safest-first order the pooled brokerage account is filled in is the
      riskiest-first order read backwards. */
  lemma ReverseRiskOrder()
    ensures Reverse(HighToLowRisk) == LowToHighRisk
  {
    var r := Reverse(HighToLowRisk);
    forall i | 0 <= i < |r| ensures r[i] == LowToHighRisk[i] {
      assert r[i] == HighToLowRisk[8 - i];
    }
  }

  /** A fund slot's position in the riskiest-first order; -1 off the order. */
  function RiskRank(f: Slot): int {
    match f
    case VwoSlot => 0
    case VxusSlot => 1
    case VbSlot => 2
    case VoSlot => 3
    case VvSlot => 4
    case BndxSlot => 5
    case BndSlot => 6
    case VtcSlot => 7
    case VtipSlot => 8
    case _ => -1
  }

  /** Known funds ranked so that different positions get different ranks are a fund order. */
  lemma RankedFundOrder(order: seq<StockSymbol>, reversed: bool)
    requires forall i :: 0 <= i < |order| ==> IsKnown(order[i]) && RiskRank(SlotOf(order[i])) == if reversed then |order| - 1 - i else i
    ensures FundOrder(order)
  {
    forall i, j | 0 <= i < j < |order| ensures SlotOf(order[i]) != SlotOf(order[j]) {
      assert RiskRank(SlotOf(order[i])) != RiskRank(SlotOf(order[j]));
    }
  }

  /** Both risk orders list the nine funds once each, and the cash fund is not
      among them. */
  lemma RiskOrders()
    ensures FundOrder(HighToLowRisk) && FundOrder(LowToHighRisk)
    ensures VMFXX !in HighToLowRisk && |HighToLowRisk| == 9
  {
    RankedFundOrder(HighToLowRisk, false);
    RankedFundOrder(LowToHighRisk, true);
  }

  function Min(a: real, b: real): (r: real)
    ensures r <= a && r <= b && (r == a || r == b)
  {
    if a <= b then a else b
  }

  function Max(a: real, b: real): (r: real)
    ensures r >= a && r >= b && (r == a || r == b)
  {
    if a >= b then a else b
  }

  /** The outcome of a walk: the account's target and what was left unplaced. */
  datatype WalkResult = WalkResult(target: ShareValues, left: real)

  /** The risk-location walk: down the order, each fund gets the smaller of the
      pooled target for it and what is left of the account's value; the walk stops
      as soon as nothing is left. */
  function Walk(overall: ShareValues, order: seq<StockSymbol>, target: ShareValues, left: real): WalkResult
    requires forall i :: 0 <= i < |order| ==> order[i] != Empty
  {
    if order == [] then WalkResult(target, left)
    else
      var value := Min(StockValue(overall, order[0]), left);
      var target' := AddStockValue(target, order[0], value);
      if left - value <= 0.0 then WalkResult(target', left - value)
      else Walk(overall, order[1..], target', left - value)
  }

  /** Runs the walk from an empty target with the account's value to place. */
  method RiskWalk(overall: ShareValues, order: seq<StockSymbol>, total: real) returns (target: ShareValues, left: real)
    requires forall i :: 0 <= i < |order| ==> order[i] != Empty
    ensures WalkResult(target, left) == Walk(overall, order, Zero(), total)
  {
    target, left := Zero(), total;
    var i := 0;
    while i < |order|
      invariant 0 <= i <= |order|
      invariant Walk(overall, order[i..], target, left) == Walk(overall, order, Zero(), total)
    {
      var symbol := order[i];
      var value := Min(StockValue(overall, symbol), left);
      assert order[i..][1..] == order[i + 1..];
      left := left - value;
      target := AddStockValue(target, symbol, value);
      if left <= 0.0 {
        return;
      }
      i := i + 1;
    }
  }

  /** The pooled targets of the funds in an order, added up. */
  function SumOrder(overall: ShareValues, order: seq<StockSymbol>): real
    requires forall i :: 0 <= i < |order| ==> order[i] != Empty
  {
    if order == [] then 0.0 else StockValue(overall, order[0]) + SumOrder(overall, order[1..])
  }

  /** The pooled target is nonnegative on every fund of the order. */
  predicate NonnegativeOn(overall: ShareValues, order: seq<StockSymbol>)
    requires forall i :: 0 <= i < |order| ==> order[i] != Empty
  {
    forall i :: 0 <= i < |order| ==> StockValue(overall, order[i]) >= 0.0
  }

  /** Whether a slot belongs to one of the order's funds. */
  predicate InOrder(order: seq<StockSymbol>, f: Slot)
    requires forall i :: 0 <= i < |order| ==> order[i] != Empty
  {
    exists i :: 0 <= i < |order| && SlotOf(order[i]) == f
  }

  /** The walk writes only the slots of the order's funds. */
  lemma {:induction false} WalkTouchesOnlyOrder(overall: ShareValues, order: seq<StockSymbol>, target: ShareValues, left: real)
    requires forall i :: 0 <= i < |order| ==> order[i] != Empty
    ensures forall f :: !InOrder(order, f) ==> Get(Walk(overall, order, target, left).target, f) == Get(target, f)
  {
    if order != [] {
      var value := Min(StockValue(overall, order[0]), left);
      var target' := AddStockValue(target, order[0], value);
      if left - value > 0.0 {
        WalkTouchesOnlyOrder(overall, order[1..], target', left - value);
        forall f | !InOrder(order, f)
          ensures Get(Walk(overall, order, target, left).target, f) == Get(target, f)
        {
          assert SlotOf(order[0]) != f;
        }
      } else {
        forall f | !InOrder(order, f)
          ensures Get(Walk(overall, order, target, left).target, f) == Get(target, f)
        {
          assert SlotOf(order[0]) != f;
        }
      }
    }
  }

  /** Over distinct funds whose slots start at zero, the walk conserves value:
      what it places plus what it leaves is what it was given. */
  lemma {:induction false} WalkConserves(overall: ShareValues, order: seq<StockSymbol>, target: ShareValues, left: real)
    requires FundOrder(order)
    requires forall i :: 0 <= i < |order| ==> StockValue(target, order[i]) == 0.0
    ensures var w := Walk(overall, order, target, left);
      TotalValue(w.target) + w.left == TotalValue(target) + left
  {
    if order != [] {
      var value := Min(StockValue(overall, order[0]), left);
      var target' := AddStockValue(target, order[0], value);
      TotalValueAfterStore(target, order[0], value);
      if left - value > 0.0 {
        forall i | 0 <= i < |order[1..]| ensures StockValue(target', order[1..][i]) == 0.0 {
          assert SlotOf(order[i + 1]) != SlotOf(order[0]);
        }
        WalkConserves(overall, order[1..], target', left - value);
      }
    }
  }

  /** Started with a nonnegative amount, the walk never leaves a negative amount. */
  lemma {:induction false} WalkLeftNonnegative(overall: ShareValues, order: seq<StockSymbol>, target: ShareValues, left: real)
    requires forall i :: 0 <= i < |order| ==> order[i] != Empty
    requires left >= 0.0
    ensures Walk(overall, order, target, left).left >= 0.0
  {
    if order != [] {
      var value := Min(StockValue(overall, order[0]), left);
      var target' := AddStockValue(target, order[0], value);
      if left - value > 0.0 {
        WalkLeftNonnegative(overall, order[1..], target', left - value);
      }
    }
  }

  /** When the pooled target is nonnegative on the order's funds, the walk leaves
      exactly what exceeds their combined target: it places everything if and only
      if the account's value fits into those funds' pooled targets. */
  lemma {:induction false} WalkLeftover(overall: ShareValues, order: seq<StockSymbol>, target: ShareValues, left: real)
    requires forall i :: 0 <= i < |order| ==> order[i] != Empty
    requires NonnegativeOn(overall, order)
    requires left >= 0.0
    ensures Walk(overall, order, target, left).left == Max(0.0, left - SumOrder(overall, order))
  {
    if order != [] {
      var value := Min(StockValue(overall, order[0]), left);
      var target' := AddStockValue(target, order[0], value);
      SumOrderNonnegative(overall, order[1..]);
      if left - value > 0.0 {
        assert NonnegativeOn(overall, order[1..]) by {
          forall i | 0 <= i < |order[1..]| ensures StockValue(overall, order[1..][i]) >= 0.0 {
            assert order[1..][i] == order[i + 1];
          }
        }
        WalkLeftover(overall, order[1..], target', left - value);
      }
    }
  }

  lemma {:induction false} SumOrderNonnegative(overall: ShareValues, order: seq<StockSymbol>)
    requires forall i :: 0 <= i < |order| ==> order[i] != Empty
    requires NonnegativeOn(overall, order)
    ensures SumOrder(overall, order) >= 0.0
  {
    if order != [] {
      assert NonnegativeOn(overall, order[1..]) by {
        forall i | 0 <= i < |order[1..]| ensures StockValue(overall, order[1..][i]) >= 0.0 {
          assert order[1..][i] == order[i + 1];
        }
      }
      SumOrderNonnegative(overall, order[1..]);
    }
  }

  /** The walk is greedy in risk order: with a nonnegative pooled target, a fund
      gets anything only once every fund before it in the order has received its
      whole pooled target. */
  lemma {:induction false} WalkFillsInOrder(overall: ShareValues, order: seq<StockSymbol>, target: ShareValues, left: real)
    requires FundOrder(order)
    requires NonnegativeOn(overall, order)
    requires forall i :: 0 <= i < |order| ==> StockValue(target, order[i]) == 0.0
    ensures var w := Walk(overall, order, target, left);
      forall j, k :: 0 <= j < k < |order| && StockValue(w.target, order[k]) > 0.0 ==>
        StockValue(w.target, order[j]) == StockValue(overall, order[j])
  {
    if order != [] {
      var value := Min(StockValue(overall, order[0]), left);
      var target' := AddStockValue(target, order[0], value);
      var w := Walk(overall, order, target, left);
      var rest := order[1..];
      if left - value <= 0.0 {
        forall k | 0 < k < |order| ensures StockValue(w.target, order[k]) == 0.0 {
          assert SlotOf(order[k]) != SlotOf(order[0]);
        }
      } else {
        assert value == StockValue(overall, order[0]);
        OrderTail(overall, order);
        forall i | 0 <= i < |rest| ensures StockValue(target', rest[i]) == 0.0 {
          assert SlotOf(order[i + 1]) != SlotOf(order[0]);
        }
        WalkFillsInOrder(overall, rest, target', left - value);
        WalkTouchesOnlyOrder(overall, rest, target', left - value);
        assert StockValue(w.target, order[0]) == StockValue(overall, order[0]);
        forall j, k | 0 <= j < k < |order| && StockValue(w.target, order[k]) > 0.0
          ensures StockValue(w.target, order[j]) == StockValue(overall, order[j])
        {
          if j > 0 {
            assert rest[j - 1] == order[j] && rest[k - 1] == order[k];
          }
        }
      }
    }
  }

  /** The tail of a fund order is a fund order without the head's slot, and a
      target nonnegative on the order is nonnegative on its tail. */
  lemma OrderTail(overall: ShareValues, order: seq<StockSymbol>)
    requires order != [] && FundOrder(order) && NonnegativeOn(overall, order)
    ensures FundOrder(order[1..]) && NonnegativeOn(overall, order[1..])
    ensures !InOrder(order[1..], SlotOf(order[0]))
  {
    var rest := order[1..];
    forall i, j | 0 <= i < j < |rest| ensures SlotOf(rest[i]) != SlotOf(rest[j]) {
      assert rest[i] == order[i + 1] && rest[j] == order[j + 1];
    }
    forall i | 0 <= i < |rest| ensures StockValue(overall, rest[i]) >= 0.0 && SlotOf(rest[i]) != SlotOf(order[0]) {
      assert rest[i] == order[i + 1];
    }
  }

  /** The reconciliation check on an account's target: strictly within 1% of the
      account's value. */
  predicate WithinOnePercent(x: real, total: real) {
    x > 0.99 * total && x < 1.01 * total
  }

  /** A target worth exactly the account passes the check if and only if the
      account's value is positive. */
  lemma WithinOnePercentOfItself(total: real)
    ensures WithinOnePercent(total, total) <==> total > 0.0
  {
  }

  /** One account's inputs: its holdings and the amounts held outside and cash
      added or withdrawn that the user declares for it. */
  datatype AccountInput = AccountInput(
    holdings: ShareValues,
    usStockAdd: real,
    usBondAdd: real,
    intStockAdd: real,
    intBondAdd: real,
    cashAdd: real)

  /** The holdings with the declared cash added to the cash fund; the total grows
      by exactly the cash added. */
  function WithCash(a: AccountInput): (r: ShareValues)
    ensures r.vmfxx == a.holdings.vmfxx + a.cashAdd
    ensures forall f :: f != VmfxxSlot ==> Get(r, f) == Get(a.holdings, f)
    ensures TotalValue(r) == TotalValue(a.holdings) + a.cashAdd
  {
    TotalValueAfterStore(a.holdings, VMFXX, StockValue(a.holdings, VMFXX) + a.cashAdd);
    AddStockValue(a.holdings, VMFXX, StockValue(a.holdings, VMFXX) + a.cashAdd)
  }

  /** The trades of an account record, in shares, are worth at the quotes exactly
      the dollar difference between its target and its current holding, fund by fund. */
  predicate TradesToTarget(a: AccountHoldings, quotes: ShareValues) {
    forall f :: Get(a.salePurchasesNeeded, f) * Get(quotes, f) == Get(a.target, f) - Get(a.current, f)
  }

  /** An account's record with the trades that take it to its target, in shares:
      each fund's dollar difference divided by its quote. */
  function Account(current: ShareValues, target: ShareValues, quotes: ShareValues): (r: AccountHoldings)
    requires NonZero(quotes)
    ensures r.current == current && r.target == target
    ensures TradesToTarget(r, quotes)
  {
    var d := Div(Sub(target, current), quotes);
    assert forall f :: Get(d, f) * Get(quotes, f) == Get(target, f) - Get(current, f) by {
      forall f ensures Get(d, f) * Get(quotes, f) == Get(target, f) - Get(current, f) {
        MulDivCancelReal(Get(target, f) - Get(current, f), Get(quotes, f));
      }
    }
    AccountHoldings(current, target, d)
  }

  /** An account already at its target needs no trade. */
  lemma AccountAtTargetTradesNothing(current: ShareValues, quotes: ShareValues)
    requires NonZero(quotes)
    ensures Account(current, current, quotes).salePurchasesNeeded == Zero()
  {
    SameRecordZeroDelta(current, quotes);
  }

  /** The documented example: 1000 in BND with a target of 1000 and BND quoted at
      100 needs no BND trade. */
  lemma AccountExample()
    ensures var c := AddStockValue(Zero(), BND, 1000.0);
      var q := AddStockValue(NewQuote(), BND, 100.0);
      NonZero(q) && Account(c, c, q).salePurchasesNeeded.bnd == 0.0
  {
    var c := AddStockValue(Zero(), BND, 1000.0);
    var q := AddStockValue(NewQuote(), BND, 100.0);
    assert NonZero(q) by {
      forall f ensures Get(q, f) != 0.0 {
        if f != BndSlot { assert Get(q, f) == Get(NewQuote(), f); }
      }
    }
    AccountAtTargetTradesNothing(c, q);
  }

  /** The brokerage holdings as the stand-alone calculation sees them: cash added,
      and the outside stock and bond amounts set from the declared additions. */
  function BrokerageCurrent(a: AccountInput): (r: ShareValues)
    ensures r.outsideStock == a.usStockAdd + a.intStockAdd && r.outsideBond == a.usBondAdd + a.intBondAdd
    ensures r.vmfxx == a.holdings.vmfxx + a.cashAdd
    ensures forall f :: InTotal(f) && f != VmfxxSlot ==> Get(r, f) == Get(a.holdings, f)
    ensures TotalValue(r) == TotalValue(a.holdings) + a.cashAdd
  {
    AddOutsideBondValue(AddOutsideStockValue(WithCash(a), a.usStockAdd + a.intStockAdd), a.usBondAdd + a.intBondAdd)
  }

  /** The target of the stand-alone brokerage calculation: the sub-allocation of a
      flat stock percentage (the rest bonds) over the account and its outside
      amounts. Over the reals the allocation and sub-allocation checks cannot fail. */
  function BrokerageTarget(brokerage: AccountInput, percentStock: real): ShareValues {
    var current := BrokerageCurrent(brokerage);
    var allocations := Custom(percentStock, 100.0 - percentStock, 0.0);
    var sub := NewCustom(allocations.value).value;
    NewTarget(sub, TotalValue(current), brokerage.usStockAdd, brokerage.usBondAdd,
              brokerage.intStockAdd, brokerage.intBondAdd)
  }

  /** The brokerage account on its own: it always succeeds, keeps the account as
      adjusted by cash and outside amounts as its current holdings, and trades in
      shares the difference to its target. */
  function BrokerageCalc(quotes: ShareValues, brokerage: AccountInput, percentStock: real): (r: Result<AccountHoldings, Error>)
    requires NonZero(quotes)
    ensures r.Success?
    ensures r.value.current == BrokerageCurrent(brokerage)
    ensures r.value.target == BrokerageTarget(brokerage, percentStock)
    ensures TradesToTarget(r.value, quotes)
  {
    Success(Account(BrokerageCurrent(brokerage), BrokerageTarget(brokerage, percentStock), quotes))
  }

  /** The sum of the account value and all its outside amounts. */
  function GrandTotal(brokerage: AccountInput): real {
    TotalValue(BrokerageCurrent(brokerage)) + brokerage.usStockAdd + brokerage.usBondAdd
    + brokerage.intBondAdd + brokerage.intStockAdd
  }

  /** The brokerage target is worth what the account holds after the cash is added,
      and over the grand total it holds exactly the requested stock percentage, the
      rest in bonds and nothing inflation-protected. */
  lemma BrokerageTargetAllocation(brokerage: AccountInput, percentStock: real)
    ensures var t := BrokerageTarget(brokerage, percentStock);
      && TotalValue(t) == TotalValue(BrokerageCurrent(brokerage))
      && StockHeld(t) == GrandTotal(brokerage) * percentStock / 100.0
      && BondHeld(t) == GrandTotal(brokerage) * (100.0 - percentStock) / 100.0
      && t.vtip == 0.0
  {
    var current := BrokerageCurrent(brokerage);
    var sub := NewCustom(Custom(percentStock, 100.0 - percentStock, 0.0).value).value;
    NewTargetSplit(sub, TotalValue(current), brokerage.usStockAdd, brokerage.usBondAdd,
                   brokerage.intStockAdd, brokerage.intBondAdd);
    NewTargetWorth(sub, TotalValue(current), brokerage.usStockAdd, brokerage.usBondAdd,
                   brokerage.intStockAdd, brokerage.intBondAdd);
  }

  /** When the grand total is not zero, the brokerage target's stock / bond /
      inflation-protected split is exactly the requested percentage, its
      complement and zero. */
  lemma BrokerageTargetSplit(brokerage: AccountInput, percentStock: real)
    requires GrandTotal(brokerage) != 0.0
    ensures PercentStockBondInfl(BrokerageTarget(brokerage, percentStock))
            == Some(Percentages(percentStock, 100.0 - percentStock, 0.0))
  {
    var t := BrokerageTarget(brokerage, percentStock);
    var grand := GrandTotal(brokerage);
    BrokerageTargetAllocation(brokerage, percentStock);
    var base := AllocationBase(t);
    assert base == grand;
    assert PercentStockBondInfl(t)
           == Some(Percentages(StockHeld(t) / base * 100.0, BondHeld(t) / base * 100.0, t.vtip / base * 100.0));
    ShareOfTotal(StockHeld(t), base, percentStock);
    ShareOfTotal(BondHeld(t), base, 100.0 - percentStock);
  }

  /** A percentage of a nonzero total, taken back as a share of that total. */
  lemma ShareOfTotal(held: real, grand: real, p: real)
    requires grand != 0.0 && held == grand * p / 100.0
    ensures held / grand * 100.0 == p
  {
  }

  /** The three account kinds' records produced by the pooled calculation, and the
      pooled target; an account that does not take part has no record. */
  datatype RetirementAccounts = RetirementAccounts(
    traditional: Option<AccountHoldings>,
    roth: Option<AccountHoldings>,
    brokerage: Option<AccountHoldings>,
    overall: Option<ShareValues>)

  /** An account takes part in the pool when its holdings, before the cash is
      added, are worth anything. */
  predicate Included(a: AccountInput) {
    TotalValue(a.holdings) != 0.0
  }

  /** The pooled value and the pooled outside amounts. */
  datatype Pool = Pool(value: real, usStock: real, usBond: real, intStock: real, intBond: real)

  function Join(p: Pool, a: AccountInput, joins: bool): Pool {
    if joins then
      Pool(p.value + TotalValue(WithCash(a)), p.usStock + a.usStockAdd, p.usBond + a.usBondAdd,
           p.intStock + a.intStockAdd, p.intBond + a.intBondAdd)
    else p
  }

  /** The pool of the accounts that take part: the Roth account, the traditional
      account, and the brokerage account when it is pooled. */
  function PoolOf(roth: AccountInput, traditional: AccountInput, includeBrokerage: bool, brokerage: AccountInput): Pool {
    Join(Join(Join(Pool(0.0, 0.0, 0.0, 0.0, 0.0), roth, Included(roth)), traditional, Included(traditional)),
         brokerage, includeBrokerage)
  }

  /** The pooled target: the sub-allocation over the pool, or all zeros when no
      account takes part. */
  function OverallTarget(sub: SubAllocations, roth: AccountInput, traditional: AccountInput,
                         includeBrokerage: bool, brokerage: AccountInput): ShareValues
  {
    var pool := PoolOf(roth, traditional, includeBrokerage, brokerage);
    if Included(roth) || Included(traditional) || includeBrokerage then
      NewTarget(sub, pool.value, pool.usStock, pool.usBond, pool.intStock, pool.intBond)
    else Zero()
  }

  function TargetOr(a: Option<AccountHoldings>): ShareValues {
    if a.Some? then a.value.target else Zero()
  }

  /** The Roth walk: riskiest fund first, placing the Roth account's value. */
  function RothWalk(overall: ShareValues, roth: AccountInput): WalkResult {
    Walk(overall, HighToLowRisk, Zero(), TotalValue(WithCash(roth)))
  }

  /** The pooled brokerage walk: safest fund first, from the whole pooled target. */
  function BrokerageWalk(overall: ShareValues, brokerage: AccountInput): WalkResult {
    Walk(overall, LowToHighRisk, Zero(), TotalValue(WithCash(brokerage)))
  }

  /** The pooled retirement calculation. The glide path for the retirement year
      gives the sub-allocation (a glide-path allocation always passes the
      sub-allocation check); the rest is `PlanFor`. */
  function RetirementPlan(retirementYear: int, thisYear: int, roth: AccountInput, traditional: AccountInput,
                          useBrokerageRetirement: bool, brokerage: AccountInput, quotes: ShareValues): (r: Result<RetirementAccounts, Error>)
    requires NonZero(quotes)
    ensures !(2000 <= retirementYear < 3000) ==> r == Failure(YearOutOfRange(retirementYear))
    ensures 2000 <= retirementYear < 3000 ==>
      var sub := NewCustom(GlidePath(retirementYear - thisYear)).value;
      && SubTotal(sub) == 100.0
      && r == PlanFor(sub, roth, traditional, useBrokerageRetirement && Included(brokerage), brokerage, quotes)
  {
    var allocations := Retirement(retirementYear, thisYear);
    if allocations.Failure? then Failure(allocations.error)
    else PlanFor(NewCustom(allocations.value).value, roth, traditional,
                 useBrokerageRetirement && Included(brokerage), brokerage, quotes)
  }

  /** The taking-part accounts are pooled into one target; the Roth account's target
      is walked out of it riskiest fund first, the pooled brokerage account's safest
      fund first (both from the whole pooled target); each walk must place the
      account's whole value and land strictly within 1% of it; the traditional
      account gets what remains. */
  function PlanFor(sub: SubAllocations, roth: AccountInput, traditional: AccountInput,
                   includeBrokerage: bool, brokerage: AccountInput, quotes: ShareValues): (r: Result<RetirementAccounts, Error>)
    requires NonZero(quotes)
    ensures r.Success? ==>
      && (r.value.roth.Some? <==> Included(roth))
      && (r.value.traditional.Some? <==> Included(traditional))
      && (r.value.brokerage.Some? <==> includeBrokerage)
      && (r.value.overall.Some? <==> Included(roth) || Included(traditional) || includeBrokerage)
      && (r.value.overall.Some? ==> r.value.overall.value == OverallTarget(sub, roth, traditional, includeBrokerage, brokerage))
    ensures r.Success? && r.value.roth.Some? ==>
      r.value.roth.value.current == WithCash(roth) && TradesToTarget(r.value.roth.value, quotes)
    ensures r.Success? && r.value.traditional.Some? ==>
      r.value.traditional.value.current == WithCash(traditional) && TradesToTarget(r.value.traditional.value, quotes)
    ensures r.Success? && r.value.brokerage.Some? ==>
      r.value.brokerage.value.current == WithCash(brokerage) && TradesToTarget(r.value.brokerage.value, quotes)
    ensures r.Failure? ==>
      || (Included(roth) && (r.error.LeftoverRothCash? || r.error.RothTargetMismatch?))
      || (includeBrokerage && (r.error.LeftoverBrokerageCash? || r.error.BrokerageTargetMismatch?))
  {
    var overall := OverallTarget(sub, roth, traditional, includeBrokerage, brokerage);
    var rothWalk := RothWalk(overall, roth);
    var brokerageWalk := BrokerageWalk(overall, brokerage);
    var rothTotal := TotalValue(WithCash(roth));
    var brokerageTotal := TotalValue(WithCash(brokerage));
    if Included(roth) && rothWalk.left != 0.0 then Failure(LeftoverRothCash(rothWalk.left))
    else if Included(roth) && !WithinOnePercent(TotalValue(rothWalk.target), rothTotal) then
      Failure(RothTargetMismatch(TotalValue(rothWalk.target), rothTotal))
    else if includeBrokerage && brokerageWalk.left != 0.0 then Failure(LeftoverBrokerageCash(brokerageWalk.left))
    else if includeBrokerage && !WithinOnePercent(TotalValue(brokerageWalk.target), brokerageTotal) then
      Failure(BrokerageTargetMismatch(TotalValue(brokerageWalk.target), brokerageTotal))
    else
      var afterRoth := if Included(roth) then Sub(overall, rothWalk.target) else overall;
      var remaining := if includeBrokerage then Sub(afterRoth, brokerageWalk.target) else afterRoth;
      Success(RetirementAccounts(
        if Included(traditional) then Some(Account(WithCash(traditional), remaining, quotes)) else None,
        if Included(roth) then Some(Account(WithCash(roth), rothWalk.target, quotes)) else None,
        if includeBrokerage then Some(Account(WithCash(brokerage), brokerageWalk.target, quotes)) else None,
        if Included(roth) || Included(traditional) || includeBrokerage then Some(overall) else None))
  }

  /** Computes `RetirementPlan` step by step, as the source does, with the two
      risk walks run as loops. */
  method RetirementCalc(retirementYear: int, thisYear: int, roth: AccountInput, traditional: AccountInput,
                        useBrokerageRetirement: bool, brokerage: AccountInput, quotes: ShareValues)
    returns (r: Result<RetirementAccounts, Error>)
    requires NonZero(quotes)
    ensures r == RetirementPlan(retirementYear, thisYear, roth, traditional, useBrokerageRetirement, brokerage, quotes)
  {
    var allocations := Retirement(retirementYear, thisYear);
    if allocations.Failure? {
      return Failure(allocations.error);
    }
    // A glide-path allocation always sums to 100, so the sub-allocation check passes.
    var subAllocations := NewCustom(allocations.value).value;

    var holdingsValue, usStockAdd, usBondAdd, intStockAdd, intBondAdd := 0.0, 0.0, 0.0, 0.0, 0.0;
    var includeRoth, includeTraditional, includeBrokerage := false, false, false;
    var rothTotal, brokerageTotal := 0.0, 0.0;
    var rothFinal, brokerageFinal, traditionalFinal := Zero(), Zero(), Zero();
    if TotalValue(roth.holdings) != 0.0 {
      var holdings := WithCash(roth);
      holdingsValue := holdingsValue + TotalValue(holdings);
      usStockAdd, usBondAdd := usStockAdd + roth.usStockAdd, usBondAdd + roth.usBondAdd;
      intStockAdd, intBondAdd := intStockAdd + roth.intStockAdd, intBondAdd + roth.intBondAdd;
      includeRoth := true;
      rothTotal := TotalValue(holdings);
      rothFinal := holdings;
    }
    ghost var afterRoth := Pool(holdingsValue, usStockAdd, usBondAdd, intStockAdd, intBondAdd);
    assert afterRoth == Join(Pool(0.0, 0.0, 0.0, 0.0, 0.0), roth, Included(roth));
    if TotalValue(traditional.holdings) != 0.0 {
      var holdings := WithCash(traditional);
      holdingsValue := holdingsValue + TotalValue(holdings);
      usStockAdd, usBondAdd := usStockAdd + traditional.usStockAdd, usBondAdd + traditional.usBondAdd;
      intStockAdd, intBondAdd := intStockAdd + traditional.intStockAdd, intBondAdd + traditional.intBondAdd;
      includeTraditional := true;
      traditionalFinal := holdings;
    }
    ghost var afterTraditional := Pool(holdingsValue, usStockAdd, usBondAdd, intStockAdd, intBondAdd);
    assert afterTraditional == Join(afterRoth, traditional, Included(traditional));
    if useBrokerageRetirement {
      if TotalValue(brokerage.holdings) != 0.0 {
        var holdings := WithCash(brokerage);
        holdingsValue := holdingsValue + TotalValue(holdings);
        usStockAdd, usBondAdd := usStockAdd + brokerage.usStockAdd, usBondAdd + brokerage.usBondAdd;
        intStockAdd, intBondAdd := intStockAdd + brokerage.intStockAdd, intBondAdd + brokerage.intBondAdd;
        includeBrokerage := true;
        brokerageTotal := TotalValue(holdings);
        brokerageFinal := holdings;
      }
    }
    ghost var pool := Pool(holdingsValue, usStockAdd, usBondAdd, intStockAdd, intBondAdd);
    assert pool == Join(afterTraditional, brokerage, includeBrokerage);
    assert pool == PoolOf(roth, traditional, includeBrokerage, brokerage);
    assert includeRoth == Included(roth) && includeTraditional == Included(traditional);
    assert includeBrokerage == (useBrokerageRetirement && Included(brokerage));

    var overall := Zero();
    var overallOption: Option<ShareValues> := None;
    if includeBrokerage || includeTraditional || includeRoth {
      overall := NewTarget(subAllocations, holdingsValue, usStockAdd, usBondAdd, intStockAdd, intBondAdd);
      overallOption := Some(overall);
    }
    assert overall == OverallTarget(subAllocations, roth, traditional, includeBrokerage, brokerage);
    r := PlaceAccounts(subAllocations, roth, traditional, includeBrokerage, brokerage, quotes, overall, overallOption);
  }

  /** The second half of the retirement calculation: the Roth and pooled brokerage
      walks over the pooled target, their checks, and the traditional account's
      remainder. */
  method PlaceAccounts(sub: SubAllocations, roth: AccountInput, traditional: AccountInput, includeBrokerage: bool,
                       brokerage: AccountInput, quotes: ShareValues, overall: ShareValues, overallOption: Option<ShareValues>)
    returns (r: Result<RetirementAccounts, Error>)
    requires NonZero(quotes)
    requires overall == OverallTarget(sub, roth, traditional, includeBrokerage, brokerage)
    requires overallOption == if Included(roth) || Included(traditional) || includeBrokerage then Some(overall) else None
    ensures r == PlanFor(sub, roth, traditional, includeBrokerage, brokerage, quotes)
  {
    var includeRoth, includeTraditional := Included(roth), Included(traditional);
    var rothFinal, brokerageFinal, traditionalFinal := WithCash(roth), WithCash(brokerage), WithCash(traditional);
    var rothTotal, brokerageTotal := TotalValue(rothFinal), TotalValue(brokerageFinal);
    var remaining := overall;
    var rothAccount: Option<AccountHoldings> := None;
    if includeRoth {
      var rothTarget, left := RiskWalk(overall, HighToLowRisk, rothTotal);
      assert WalkResult(rothTarget, left) == RothWalk(overall, roth);
      if left != 0.0 {
        return Failure(LeftoverRothCash(left));
      }
      if !WithinOnePercent(TotalValue(rothTarget), TotalValue(rothFinal)) {
        return Failure(RothTargetMismatch(TotalValue(rothTarget), TotalValue(rothFinal)));
      }
      rothAccount := Some(Account(rothFinal, rothTarget, quotes));
      remaining := Sub(remaining, rothTarget);
    }

    var brokerageAccount: Option<AccountHoldings> := None;
    if includeBrokerage {
      var brokerageTarget, left := RiskWalk(overall, LowToHighRisk, brokerageTotal);
      assert WalkResult(brokerageTarget, left) == BrokerageWalk(overall, brokerage);
      if left != 0.0 {
        return Failure(LeftoverBrokerageCash(left));
      }
      if !WithinOnePercent(TotalValue(brokerageTarget), TotalValue(brokerageFinal)) {
        return Failure(BrokerageTargetMismatch(TotalValue(brokerageTarget), TotalValue(brokerageFinal)));
      }
      brokerageAccount := Some(Account(brokerageFinal, brokerageTarget, quotes));
      remaining := Sub(remaining, brokerageTarget);
    }

    var traditionalAccount: Option<AccountHoldings> := None;
    if includeTraditional {
      traditionalAccount := Some(Account(traditionalFinal, remaining, quotes));
    }
    r := Success(RetirementAccounts(traditionalAccount, rothAccount, brokerageAccount, overallOption));
  }

  /** A walk that places everything over distinct funds gives a target worth
      exactly the amount placed. */
  lemma WalkPlacesAll(overall: ShareValues, order: seq<StockSymbol>, total: real)
    requires FundOrder(order)
    requires Walk(overall, order, Zero(), total).left == 0.0
    ensures TotalValue(Walk(overall, order, Zero(), total).target) == total
  {
    WalkConserves(overall, order, Zero(), total);
  }

  /** The pooled target is worth the pooled value, the accounts' values with
      their cash added, whenever the sub-allocation sums to 100. */
  lemma OverallWorth(sub: SubAllocations, roth: AccountInput, traditional: AccountInput,
                     includeBrokerage: bool, brokerage: AccountInput)
    requires SubTotal(sub) == 100.0
    ensures TotalValue(OverallTarget(sub, roth, traditional, includeBrokerage, brokerage))
            == (if Included(roth) then TotalValue(WithCash(roth)) else 0.0)
             + (if Included(traditional) then TotalValue(WithCash(traditional)) else 0.0)
             + (if includeBrokerage then TotalValue(WithCash(brokerage)) else 0.0)
  {
    var pool := PoolOf(roth, traditional, includeBrokerage, brokerage);
    NewTargetWorth(sub, pool.value, pool.usStock, pool.usBond, pool.intStock, pool.intBond);
  }

  /** Every account record the pooled calculation produces is worth, in its
      target, exactly what the account holds with its cash added: the Roth and
      brokerage walks place all of it, and the traditional account gets the rest of
      a pooled target worth all three. */
  lemma PlanConserves(sub: SubAllocations, roth: AccountInput, traditional: AccountInput,
                      includeBrokerage: bool, brokerage: AccountInput, quotes: ShareValues)
    requires NonZero(quotes) && SubTotal(sub) == 100.0
    requires PlanFor(sub, roth, traditional, includeBrokerage, brokerage, quotes).Success?
    ensures var p := PlanFor(sub, roth, traditional, includeBrokerage, brokerage, quotes).value;
      && (p.roth.Some? ==> TotalValue(p.roth.value.target) == TotalValue(p.roth.value.current))
      && (p.brokerage.Some? ==> TotalValue(p.brokerage.value.target) == TotalValue(p.brokerage.value.current))
      && (p.traditional.Some? ==> TotalValue(p.traditional.value.target) == TotalValue(p.traditional.value.current))
  {
    var overall := OverallTarget(sub, roth, traditional, includeBrokerage, brokerage);
    var rothWalk := RothWalk(overall, roth);
    var brokerageWalk := BrokerageWalk(overall, brokerage);
    RiskOrders();
    OverallWorth(sub, roth, traditional, includeBrokerage, brokerage);
    if Included(roth) {
      WalkPlacesAll(overall, HighToLowRisk, TotalValue(WithCash(roth)));
    }
    if includeBrokerage {
      WalkPlacesAll(overall, LowToHighRisk, TotalValue(WithCash(brokerage)));
    }
    var afterRoth := if Included(roth) then Sub(overall, rothWalk.target) else overall;
    var remaining := if includeBrokerage then Sub(afterRoth, brokerageWalk.target) else afterRoth;
    TotalValueLinear(overall, rothWalk.target);
    TotalValueLinear(afterRoth, brokerageWalk.target);
    assert TotalValue(remaining) == if Included(traditional) then TotalValue(WithCash(traditional)) else 0.0;
  }

  /** When the traditional account takes part, the three targets add up to the
      pooled target: nothing of it is lost or placed twice. */
  lemma PlanPartition(sub: SubAllocations, roth: AccountInput, traditional: AccountInput,
                      includeBrokerage: bool, brokerage: AccountInput, quotes: ShareValues)
    requires NonZero(quotes)
    requires PlanFor(sub, roth, traditional, includeBrokerage, brokerage, quotes).Success?
    requires Included(traditional)
    ensures var p := PlanFor(sub, roth, traditional, includeBrokerage, brokerage, quotes).value;
      Add(Add(p.traditional.value.target, TargetOr(p.roth)), TargetOr(p.brokerage)) == p.overall.value
  {
    var p := PlanFor(sub, roth, traditional, includeBrokerage, brokerage, quotes).value;
    var sum := Add(Add(p.traditional.value.target, TargetOr(p.roth)), TargetOr(p.brokerage));
    forall f ensures Get(sum, f) == Get(p.overall.value, f) {
    }
    SlotwiseEqual(sum, p.overall.value);
  }

  /** The Roth walk leaves over exactly what exceeds the pooled target of all nine
      funds; so, with a nonnegative pooled target, the calculation stops on leftover
      Roth cash if and only if the Roth account is worth more than that. */
  lemma RothLeftover(sub: SubAllocations, roth: AccountInput, traditional: AccountInput,
                     includeBrokerage: bool, brokerage: AccountInput, quotes: ShareValues)
    requires NonZero(quotes)
    requires Included(roth) && TotalValue(WithCash(roth)) >= 0.0
    requires NonnegativeOn(OverallTarget(sub, roth, traditional, includeBrokerage, brokerage), HighToLowRisk)
    ensures var overall := OverallTarget(sub, roth, traditional, includeBrokerage, brokerage);
      var r := PlanFor(sub, roth, traditional, includeBrokerage, brokerage, quotes);
      (r.Failure? && r.error.LeftoverRothCash?) <==> TotalValue(WithCash(roth)) > SumOrder(overall, HighToLowRisk)
  {
    var overall := OverallTarget(sub, roth, traditional, includeBrokerage, brokerage);
    RiskOrders();
    WalkLeftover(overall, HighToLowRisk, Zero(), TotalValue(WithCash(roth)));
  }

  /** The 1% checks are reached only after a walk has placed everything, so they
      fail only for an account whose value with cash is not positive. */
  lemma MismatchOnlyWhenNotPositive(sub: SubAllocations, roth: AccountInput, traditional: AccountInput,
                                    includeBrokerage: bool, brokerage: AccountInput, quotes: ShareValues)
    requires NonZero(quotes)
    requires PlanFor(sub, roth, traditional, includeBrokerage, brokerage, quotes).Failure?
    ensures var e := PlanFor(sub, roth, traditional, includeBrokerage, brokerage, quotes).error;
      && (e.RothTargetMismatch? ==> TotalValue(WithCash(roth)) <= 0.0)
      && (e.BrokerageTargetMismatch? ==> TotalValue(WithCash(brokerage)) <= 0.0)
  {
    var overall := OverallTarget(sub, roth, traditional, includeBrokerage, brokerage);
    var rothWalk := RothWalk(overall, roth);
    var brokerageWalk := BrokerageWalk(overall, brokerage);
    RiskOrders();
    if Included(roth) && rothWalk.left == 0.0 {
      WalkPlacesAll(overall, HighToLowRisk, TotalValue(WithCash(roth)));
      WithinOnePercentOfItself(TotalValue(WithCash(roth)));
    }
    if includeBrokerage && brokerageWalk.left == 0.0 {
      WalkPlacesAll(overall, LowToHighRisk, TotalValue(WithCash(brokerage)));
      WithinOnePercentOfItself(TotalValue(WithCash(brokerage)));
    }
  }

  /** Tax location: with a nonnegative pooled target, the Roth account is filled
      riskiest fund first and the pooled brokerage account safest fund first; a fund
      gets anything only once every fund before it in that order holds its whole
      pooled target. */
  lemma PlanFillsByRisk(sub: SubAllocations, roth: AccountInput, traditional: AccountInput,
                        includeBrokerage: bool, brokerage: AccountInput, quotes: ShareValues)
    requires NonZero(quotes)
    requires PlanFor(sub, roth, traditional, includeBrokerage, brokerage, quotes).Success?
    requires NonnegativeOn(OverallTarget(sub, roth, traditional, includeBrokerage, brokerage), HighToLowRisk)
    requires NonnegativeOn(OverallTarget(sub, roth, traditional, includeBrokerage, brokerage), LowToHighRisk)
    ensures var p := PlanFor(sub, roth, traditional, includeBrokerage, brokerage, quotes).value;
      var overall := OverallTarget(sub, roth, traditional, includeBrokerage, brokerage);
      && (p.roth.Some? ==>
            forall j, k :: 0 <= j < k < |HighToLowRisk| && StockValue(p.roth.value.target, HighToLowRisk[k]) > 0.0 ==>
              StockValue(p.roth.value.target, HighToLowRisk[j]) == StockValue(overall, HighToLowRisk[j]))
      && (p.brokerage.Some? ==>
            forall j, k :: 0 <= j < k < |LowToHighRisk| && StockValue(p.brokerage.value.target, LowToHighRisk[k]) > 0.0 ==>
              StockValue(p.brokerage.value.target, LowToHighRisk[j]) == StockValue(overall, LowToHighRisk[j]))
  {
    var overall := OverallTarget(sub, roth, traditional, includeBrokerage, brokerage);
    RiskOrders();
    WalkFillsInOrder(overall, HighToLowRisk, Zero(), TotalValue(WithCash(roth)));
    WalkFillsInOrder(overall, LowToHighRisk, Zero(), TotalValue(WithCash(brokerage)));
  }

  /** The pooled target is the sub-allocation spread over the pool: its value,
      and its outside stock and bond amounts, US and international. */
  lemma OverallIsNewTarget(sub: SubAllocations, roth: AccountInput, traditional: AccountInput,
                           includeBrokerage: bool, brokerage: AccountInput)
    requires Included(roth) || Included(traditional) || includeBrokerage
    ensures var pool := PoolOf(roth, traditional, includeBrokerage, brokerage);
      OverallTarget(sub, roth, traditional, includeBrokerage, brokerage)
      == NewTarget(sub, pool.value, pool.usStock, pool.usBond, pool.intStock, pool.intBond)
  {
  }

  /** A target built from an allocation (for the pooled target, the glide path of
      the retirement year, over the pool) follows that allocation: over the
      value and all the outside amounts, it holds the allocation's stock, bond and
      inflation-protected percentages. */
  lemma {:induction false} TargetFollowsAllocation(a: Allocations, total: real, usStock: real, usBond: real,
                                                   intStock: real, intBond: real)
    requires Valid(a)
    ensures var grand := total + usStock + usBond + intBond + intStock;
      var r := NewTarget(NewCustom(a).value, total, usStock, usBond, intStock, intBond);
      && StockHeld(r) == grand * a.totalStock / 100.0
      && BondHeld(r) == grand * a.totalBond / 100.0
      && r.vtip == grand * a.totalInflationProtected / 100.0
  {
    var sub := NewCustom(a).value;
    NewTargetSplit(sub, total, usStock, usBond, intStock, intBond);
  }

  /** The record an account kind ends up with: the one computed for it, or the
      default record when there is none. */
  function RecordOr(a: Option<AccountHoldings>): AccountHoldings {
    if a.Some? then a.value else DefaultAccountHoldings()
  }

  /** The brokerage record of the rebalance: the pooled one when the brokerage
      account took part in the retirement pool, otherwise the stand-alone
      calculation when the account holds anything, otherwise the default record. */
  function BrokerageRecord(pooled: Option<AccountHoldings>, quotes: ShareValues, brokerage: AccountInput,
                           percentStock: real): AccountHoldings
    requires NonZero(quotes)
  {
    if pooled.Some? then pooled.value
    else if TotalValue(brokerage.holdings) != 0.0 then BrokerageCalc(quotes, brokerage, percentStock).value
    else DefaultAccountHoldings()
  }

  /** The whole rebalance. The retirement calculation runs first and any error of
      it is the result; on success each account kind holds the record computed for
      it, the brokerage account falling back to the stand-alone calculation, and
      the pooled target is kept when there is one. */
  method ToBuy(percentStock: real, retirementYear: int, thisYear: int, roth: AccountInput, traditional: AccountInput,
               useBrokerageRetirement: bool, brokerage: AccountInput, quotes: ShareValues)
    returns (r: Result<VanguardRebalance, Error>)
    requires NonZero(quotes)
    ensures var plan := RetirementPlan(retirementYear, thisYear, roth, traditional, useBrokerageRetirement, brokerage, quotes);
      && (r.Success? <==> plan.Success?)
      && (r.Failure? ==> r.error == plan.error)
      && (r.Success? ==>
            && fresh(r.value)
            && r.value.traditionalIra == RecordOr(plan.value.traditional)
            && r.value.rothIra == RecordOr(plan.value.roth)
            && r.value.brokerage == BrokerageRecord(plan.value.brokerage, quotes, brokerage, percentStock)
            && r.value.retirementTarget == (if plan.value.overall.Some? then plan.value.overall.value else Zero()))
  {
    var accounts := RetirementCalc(retirementYear, thisYear, roth, traditional, useBrokerageRetirement, brokerage, quotes);
    if accounts.Failure? {
      return Failure(accounts.error);
    }
    var rebalance := Assemble(accounts.value, percentStock, brokerage, quotes);
    r := Success(rebalance);
  }

  /** Fills a fresh rebalance from the retirement accounts: each account kind the
      plan computed, the stand-alone brokerage calculation when the brokerage
      account was not pooled but holds something, and the pooled target. */
  method Assemble(plan: RetirementAccounts, percentStock: real, brokerage: AccountInput, quotes: ShareValues)
    returns (rebalance: VanguardRebalance)
    requires NonZero(quotes)
    ensures fresh(rebalance)
    ensures rebalance.traditionalIra == RecordOr(plan.traditional)
    ensures rebalance.rothIra == RecordOr(plan.roth)
    ensures rebalance.brokerage == BrokerageRecord(plan.brokerage, quotes, brokerage, percentStock)
    ensures rebalance.retirementTarget == (if plan.overall.Some? then plan.overall.value else Zero())
  {
    rebalance := new VanguardRebalance();
    if plan.traditional.Some? {
      rebalance.AddAccountHoldings(plan.traditional.value, TraditionalIra);
    }
    if plan.roth.Some? {
      rebalance.AddAccountHoldings(plan.roth.value, RothIra);
    }
    if plan.brokerage.Some? {
      rebalance.AddAccountHoldings(plan.brokerage.value, Brokerage);
    } else if TotalValue(brokerage.holdings) != 0.0 {
      var account := BrokerageCalc(quotes, brokerage, percentStock);
      rebalance.AddAccountHoldings(account.value, Brokerage);
    }
    if plan.overall.Some? {
      rebalance.AddRetirementTarget(plan.overall.value);
    }
  }

  /** The lookup ending the minimum-distribution calculation: the traditional
      account's value spread over the distribution period the table gives for the
      age, or zero for an age the table does not list. */
  function MinimumDistribution(age: nat, traditionalValue: real, table: map<nat, real>): (r: real)
    requires age in table ==> table[age] != 0.0
    ensures age in table ==> r * table[age] == traditionalValue
    ensures age !in table ==> r == 0.0
  {
    if age in table then
      var period := table[age];
      assert traditionalValue / period * period == traditionalValue;
      traditionalValue / period
    else 0.0
  }

  /** Over a positive distribution period, a larger account needs a larger
      distribution. */
  lemma MinimumDistributionMonotone(age: nat, v1: real, v2: real, table: map<nat, real>)
    requires age in table && table[age] > 0.0
    requires v1 <= v2
    ensures MinimumDistribution(age, v1, table) <= MinimumDistribution(age, v2, table)
  {
    var period := table[age];
    assert v1 / period <= v2 / period;
  }
}
