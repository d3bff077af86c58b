/** The asset-value vector: the symbols the system supports, the 13-slot record that
    holds one value per fund plus cash, the catch-all bucket and the two outside
    amounts, its field-wise algebra, and the records built from it. */
module Holdings {
  import opened Wrappers
  import opened Asset

  /** A fund symbol. `Empty` marks a symbol never filled in; `Other` carries any
      unsupported ticker, and all of them share one value slot. */
  datatype StockSymbol = VXUS | BNDX | VTIP | BND | VWO | VO | VB | VTC | VV | VMFXX | Empty | Other(ticker: string)

  /** The ten tickers the resolver recognises. */
  const KnownTickers: seq<string> := ["VXUS", "BNDX", "VTIP", "BND", "VWO", "VO", "VB", "VTC", "VV", "VMFXX"]

  /** A symbol that names one of the nine funds or the cash sweep fund. */
  predicate IsKnown(s: StockSymbol) {
    !s.Empty? && !s.Other?
  }

  /** The text a symbol stands for. */
  function Ticker(s: StockSymbol): string {
    match s
    case VXUS => "VXUS"
    case BNDX => "BNDX"
    case VTIP => "VTIP"
    case BND => "BND"
    case VWO => "VWO"
    case VO => "VO"
    case VB => "VB"
    case VTC => "VTC"
    case VV => "VV"
    case VMFXX => "VMFXX"
    case Empty => ""
    case Other(t) => t
  }

  /** Resolves a ticker. The result always spells the input back (so no text is
      lost in the variant it picks), the ten known tickers and only they give a
      known fund, and only the empty text gives `Empty`. */
  function NewSymbol(symbol: string): (r: StockSymbol)
    ensures Ticker(r) == symbol
    ensures IsKnown(r) <==> symbol in KnownTickers
    ensures r.Empty? <==> symbol == ""
    ensures r.Other? <==> symbol != "" && symbol !in KnownTickers
  {
    if symbol == "VXUS" then VXUS
    else if symbol == "BNDX" then BNDX
    else if symbol == "VTIP" then VTIP
    else if symbol == "BND" then BND
    else if symbol == "VWO" then VWO
    else if symbol == "VO" then VO
    else if symbol == "VB" then VB
    else if symbol == "VTC" then VTC
    else if symbol == "VV" then VV
    else if symbol == "VMFXX" then VMFXX
    else if symbol == "" then Empty
    else Other(symbol)
  }

  /** Resolution inverts `Ticker` on every symbol the resolver can produce. */
  lemma SymbolRoundTrip(s: StockSymbol)
    requires s.Other? ==> s.ticker != "" && s.ticker !in KnownTickers
    ensures NewSymbol(Ticker(s)) == s
  {
  }

  /** One field of the value record. */
  datatype Slot =
    | VxusSlot | BndxSlot | BndSlot | VwoSlot | VoSlot | VbSlot | VtcSlot | VvSlot | VtipSlot
    | VmfxxSlot | OtherSlot | OutsideBondSlot | OutsideStockSlot

  /** The slot a symbol's value is kept in; every `Other` ticker maps to one slot. */
  function SlotOf(s: StockSymbol): Slot
    requires s != Empty
  {
    match s
    case VXUS => VxusSlot
    case BNDX => BndxSlot
    case VTIP => VtipSlot
    case BND => BndSlot
    case VWO => VwoSlot
    case VO => VoSlot
    case VB => VbSlot
    case VTC => VtcSlot
    case VV => VvSlot
    case VMFXX => VmfxxSlot
    case Other(_) => OtherSlot
  }

  /** Distinct symbols share a slot only when both are unsupported tickers, and no
      symbol reaches the two outside slots. */
  lemma SlotOfSharing(s: StockSymbol, t: StockSymbol)
    requires s != Empty && t != Empty
    ensures SlotOf(s) == SlotOf(t) <==> s == t || (s.Other? && t.Other?)
    ensures SlotOf(s) != OutsideBondSlot && SlotOf(s) != OutsideStockSlot
  {
  }

  /** Values per fund (a price, a dollar amount or a share count), the cash sweep
      fund, the unsupported-ticker bucket, and stock and bond held outside. */
  datatype ShareValues = ShareValues(
    vxus: real,
    bndx: real,
    bnd: real,
    vwo: real,
    vo: real,
    vb: real,
    vtc: real,
    vv: real,
    vtip: real,
    vmfxx: real,
    other: real,
    outsideBond: real,
    outsideStock: real)

  function Get(v: ShareValues, f: Slot): real {
    match f
    case VxusSlot => v.vxus
    case BndxSlot => v.bndx
    case BndSlot => v.bnd
    case VwoSlot => v.vwo
    case VoSlot => v.vo
    case VbSlot => v.vb
    case VtcSlot => v.vtc
    case VvSlot => v.vv
    case VtipSlot => v.vtip
    case VmfxxSlot => v.vmfxx
    case OtherSlot => v.other
    case OutsideBondSlot => v.outsideBond
    case OutsideStockSlot => v.outsideStock
  }

  /** Two records that agree on every slot are the same record. */
  lemma SlotwiseEqual(a: ShareValues, b: ShareValues)
    requires forall f :: Get(a, f) == Get(b, f)
    ensures a == b
  {
    assert Get(a, VxusSlot) == Get(b, VxusSlot) && Get(a, BndxSlot) == Get(b, BndxSlot);
    assert Get(a, BndSlot) == Get(b, BndSlot) && Get(a, VwoSlot) == Get(b, VwoSlot);
    assert Get(a, VoSlot) == Get(b, VoSlot) && Get(a, VbSlot) == Get(b, VbSlot);
    assert Get(a, VtcSlot) == Get(b, VtcSlot) && Get(a, VvSlot) == Get(b, VvSlot);
    assert Get(a, VtipSlot) == Get(b, VtipSlot) && Get(a, VmfxxSlot) == Get(b, VmfxxSlot);
    assert Get(a, OtherSlot) == Get(b, OtherSlot);
    assert Get(a, OutsideBondSlot) == Get(b, OutsideBondSlot);
    assert Get(a, OutsideStockSlot) == Get(b, OutsideStockSlot);
  }

  /** The record with one slot replaced. */
  function Set(v: ShareValues, f: Slot, x: real): (r: ShareValues)
    ensures forall g :: Get(r, g) == if g == f then x else Get(v, g)
  {
    match f
    case VxusSlot => v.(vxus := x)
    case BndxSlot => v.(bndx := x)
    case BndSlot => v.(bnd := x)
    case VwoSlot => v.(vwo := x)
    case VoSlot => v.(vo := x)
    case VbSlot => v.(vb := x)
    case VtcSlot => v.(vtc := x)
    case VvSlot => v.(vv := x)
    case VtipSlot => v.(vtip := x)
    case VmfxxSlot => v.(vmfxx := x)
    case OtherSlot => v.(other := x)
    case OutsideBondSlot => v.(outsideBond := x)
    case OutsideStockSlot => v.(outsideStock := x)
  }

  /** The all-zero record, used for fresh holdings and targets. */
  function Zero(): (v: ShareValues)
    ensures forall f :: Get(v, f) == 0.0
  {
    ShareValues(0.0, 0.0, 0.0, 0.0, 0.0, 0.0, 0.0, 0.0, 0.0, 0.0, 0.0, 0.0, 0.0)
  }

  /** The all-one record a quote vector starts from, so that a missing quote
      leaves a division unchanged instead of dividing by zero. */
  function NewQuote(): (v: ShareValues)
    ensures forall f :: Get(v, f) == 1.0
  {
    ShareValues(1.0, 1.0, 1.0, 1.0, 1.0, 1.0, 1.0, 1.0, 1.0, 1.0, 1.0, 1.0, 1.0)
  }

  /** Whether any slot other than the unsupported-ticker bucket differs from a
      default value. */
  function ValueAdded(v: ShareValues, default: real): (r: bool)
    ensures r <==> exists f :: f != OtherSlot && Get(v, f) != default
  {
    var r := v.vxus != default || v.bndx != default || v.vtip != default || v.bnd != default
      || v.vwo != default || v.vo != default || v.vb != default || v.vtc != default
      || v.vv != default || v.vmfxx != default || v.outsideBond != default || v.outsideStock != default;
    assert r ==> exists f :: f != OtherSlot && Get(v, f) != default by {
      if v.vxus != default { assert Get(v, VxusSlot) != default; }
      else if v.bndx != default { assert Get(v, BndxSlot) != default; }
      else if v.vtip != default { assert Get(v, VtipSlot) != default; }
      else if v.bnd != default { assert Get(v, BndSlot) != default; }
      else if v.vwo != default { assert Get(v, VwoSlot) != default; }
      else if v.vo != default { assert Get(v, VoSlot) != default; }
      else if v.vb != default { assert Get(v, VbSlot) != default; }
      else if v.vtc != default { assert Get(v, VtcSlot) != default; }
      else if v.vv != default { assert Get(v, VvSlot) != default; }
      else if v.vmfxx != default { assert Get(v, VmfxxSlot) != default; }
      else if v.outsideBond != default { assert Get(v, OutsideBondSlot) != default; }
      else if v.outsideStock != default { assert Get(v, OutsideStockSlot) != default; }
    }
    r
  }

  /** A fresh record and a fresh quote vector report nothing added, whatever sits
      in the unsupported-ticker bucket. */
  lemma ValueAddedDefaults(x: real)
    ensures !ValueAdded(Zero().(other := x), 0.0)
    ensures !ValueAdded(NewQuote().(other := x), 1.0)
  {
  }

  /** The value kept for a symbol; `Empty` is a caller error. */
  function StockValue(v: ShareValues, s: StockSymbol): (r: real)
    requires s != Empty
    ensures r == Get(v, SlotOf(s))
  {
    match s
    case VXUS => v.vxus
    case BNDX => v.bndx
    case VTIP => v.vtip
    case BND => v.bnd
    case VWO => v.vwo
    case VO => v.vo
    case VB => v.vb
    case VTC => v.vtc
    case VV => v.vv
    case VMFXX => v.vmfxx
    case Other(_) => v.other
  }

  /** Stores a value for a symbol, replacing the one there: afterwards the symbol
      reads back the new value and every other slot is as before. */
  function AddStockValue(v: ShareValues, s: StockSymbol, x: real): (r: ShareValues)
    requires s != Empty
    ensures StockValue(r, s) == x
    ensures forall f :: f != SlotOf(s) ==> Get(r, f) == Get(v, f)
  {
    Set(v, SlotOf(s), x)
  }

  /** Lowers the value kept for a symbol by `x`; every other slot is as before. */
  function SubtractStockValue(v: ShareValues, s: StockSymbol, x: real): (r: ShareValues)
    requires s != Empty
    ensures StockValue(r, s) == StockValue(v, s) - x
    ensures forall f :: f != SlotOf(s) ==> Get(r, f) == Get(v, f)
  {
    Set(v, SlotOf(s), Get(v, SlotOf(s)) - x)
  }

  /** Replaces the amount of stock held outside the custodial accounts. */
  function AddOutsideStockValue(v: ShareValues, x: real): (r: ShareValues)
    ensures forall f :: Get(r, f) == if f == OutsideStockSlot then x else Get(v, f)
  {
    v.(outsideStock := x)
  }

  /** Replaces the amount of bonds held outside the custodial accounts. */
  function AddOutsideBondValue(v: ShareValues, x: real): (r: ShareValues)
    ensures forall f :: Get(r, f) == if f == OutsideBondSlot then x else Get(v, f)
  {
    v.(outsideBond := x)
  }

  /** The slots `TotalValue` adds: the nine funds, cash and the unsupported bucket. */
  predicate InTotal(f: Slot) {
    f != OutsideBondSlot && f != OutsideStockSlot
  }

  /** The value held in the custodial accounts: the nine funds, cash and the
      unsupported bucket, without the outside amounts. */
  function TotalValue(v: ShareValues): real {
    v.vxus + v.bndx + v.bnd + v.vwo + v.vo + v.vb + v.vtc + v.vv + v.vmfxx + v.vtip + v.other
  }

  /** The slots in a list of slots, added up. */
  function SumSlots(v: ShareValues, fs: seq<Slot>): real {
    if fs == [] then 0.0 else Get(v, fs[0]) + SumSlots(v, fs[1..])
  }

  /** The slots `TotalValue` covers, listed once each. */
  const ValueSlots: seq<Slot> :=
    [VxusSlot, BndxSlot, BndSlot, VwoSlot, VoSlot, VbSlot, VtcSlot, VvSlot, VtipSlot, VmfxxSlot, OtherSlot]

  lemma ValueSlotsAreTheTotalSlots()
    ensures forall f :: f in ValueSlots <==> InTotal(f)
  {
  }

  /** `TotalValue` is the sum of the eleven slots it covers, and the two outside
      amounts do not enter it. */
  lemma TotalValueIsSlotSum(v: ShareValues)
    ensures TotalValue(v) == SumSlots(v, ValueSlots)
    ensures forall x, y :: TotalValue(v.(outsideBond := x, outsideStock := y)) == TotalValue(v)
  {
    var fs := ValueSlots;
    assert SumSlots(v, fs[10..]) == v.other;
    assert SumSlots(v, fs[9..]) == v.vmfxx + v.other;
    assert SumSlots(v, fs[8..]) == v.vtip + v.vmfxx + v.other;
    assert SumSlots(v, fs[7..]) == v.vv + v.vtip + v.vmfxx + v.other;
    assert SumSlots(v, fs[6..]) == v.vtc + v.vv + v.vtip + v.vmfxx + v.other;
    assert SumSlots(v, fs[5..]) == v.vb + v.vtc + v.vv + v.vtip + v.vmfxx + v.other;
    assert SumSlots(v, fs[4..]) == v.vo + v.vb + v.vtc + v.vv + v.vtip + v.vmfxx + v.other;
    assert SumSlots(v, fs[3..]) == v.vwo + v.vo + v.vb + v.vtc + v.vv + v.vtip + v.vmfxx + v.other;
    assert SumSlots(v, fs[2..]) == v.bnd + v.vwo + v.vo + v.vb + v.vtc + v.vv + v.vtip + v.vmfxx + v.other;
    assert SumSlots(v, fs[1..]) == v.bndx + v.bnd + v.vwo + v.vo + v.vb + v.vtc + v.vv + v.vtip + v.vmfxx + v.other;
  }

  /** The documented example: 5000 in BND, 2000 in BNDX and 4000 in VB total 11000. */
  lemma TotalValueExample()
    ensures TotalValue(AddStockValue(AddStockValue(AddStockValue(Zero(), BND, 5000.0), BNDX, 2000.0), VB, 4000.0)) == 11000.0
  {
    var v1 := AddStockValue(Zero(), BND, 5000.0);
    assert v1 == Zero().(bnd := 5000.0);
    var v2 := AddStockValue(v1, BNDX, 2000.0);
    assert v2 == v1.(bndx := 2000.0);
    var v3 := AddStockValue(v2, VB, 4000.0);
    assert v3 == v2.(vb := 4000.0);
  }

  /** Storing a value for a symbol moves the total by the change in that slot. */
  lemma TotalValueAfterStore(v: ShareValues, s: StockSymbol, x: real)
    requires s != Empty
    ensures TotalValue(AddStockValue(v, s, x)) == TotalValue(v) - StockValue(v, s) + x
    ensures TotalValue(SubtractStockValue(v, s, x)) == TotalValue(v) - x
  {
    var r := AddStockValue(v, s, x);
    var q := SubtractStockValue(v, s, x);
    assert forall f :: f != SlotOf(s) ==> Get(r, f) == Get(v, f) && Get(q, f) == Get(v, f);
    match s {
      case VXUS => assert r == v.(vxus := x) by { SlotwiseEqual(r, v.(vxus := x)); }
                   assert q == v.(vxus := v.vxus - x) by { SlotwiseEqual(q, v.(vxus := v.vxus - x)); }
      case BNDX => assert r == v.(bndx := x) by { SlotwiseEqual(r, v.(bndx := x)); }
                   assert q == v.(bndx := v.bndx - x) by { SlotwiseEqual(q, v.(bndx := v.bndx - x)); }
      case VTIP => assert r == v.(vtip := x) by { SlotwiseEqual(r, v.(vtip := x)); }
                   assert q == v.(vtip := v.vtip - x) by { SlotwiseEqual(q, v.(vtip := v.vtip - x)); }
      case BND => assert r == v.(bnd := x) by { SlotwiseEqual(r, v.(bnd := x)); }
                  assert q == v.(bnd := v.bnd - x) by { SlotwiseEqual(q, v.(bnd := v.bnd - x)); }
      case VWO => assert r == v.(vwo := x) by { SlotwiseEqual(r, v.(vwo := x)); }
                  assert q == v.(vwo := v.vwo - x) by { SlotwiseEqual(q, v.(vwo := v.vwo - x)); }
      case VO => assert r == v.(vo := x) by { SlotwiseEqual(r, v.(vo := x)); }
                 assert q == v.(vo := v.vo - x) by { SlotwiseEqual(q, v.(vo := v.vo - x)); }
      case VB => assert r == v.(vb := x) by { SlotwiseEqual(r, v.(vb := x)); }
                 assert q == v.(vb := v.vb - x) by { SlotwiseEqual(q, v.(vb := v.vb - x)); }
      case VTC => assert r == v.(vtc := x) by { SlotwiseEqual(r, v.(vtc := x)); }
                  assert q == v.(vtc := v.vtc - x) by { SlotwiseEqual(q, v.(vtc := v.vtc - x)); }
      case VV => assert r == v.(vv := x) by { SlotwiseEqual(r, v.(vv := x)); }
                 assert q == v.(vv := v.vv - x) by { SlotwiseEqual(q, v.(vv := v.vv - x)); }
      case VMFXX => assert r == v.(vmfxx := x) by { SlotwiseEqual(r, v.(vmfxx := x)); }
                    assert q == v.(vmfxx := v.vmfxx - x) by { SlotwiseEqual(q, v.(vmfxx := v.vmfxx - x)); }
      case Other(_) => assert r == v.(other := x) by { SlotwiseEqual(r, v.(other := x)); }
                       assert q == v.(other := v.other - x) by { SlotwiseEqual(q, v.(other := v.other - x)); }
    }
  }

  /** Stock, bond and inflation-protected shares of a holding, in percent. */
  datatype Percentages = Percentages(stock: real, bond: real, inflation: real)

  /** The base the percentages are taken of: the funds (without cash and the
      unsupported bucket) plus the outside amounts. */
  function AllocationBase(v: ShareValues): real {
    TotalValue(v) - v.vmfxx - v.other + v.outsideBond + v.outsideStock
  }

  /** The stock held: the five stock funds and the outside stock amount. */
  function StockHeld(v: ShareValues): real {
    v.vwo + v.vo + v.vb + v.vv + v.vxus + v.outsideStock
  }

  /** The bonds held: the three bond funds and the outside bond amount. */
  function BondHeld(v: ShareValues): real {
    v.bndx + v.bnd + v.vtc + v.outsideBond
  }

  /** The stock / bond / inflation-protected split of a dollar holding, outside
      amounts included. Where the base is zero the source produces non-finite
      values; the model returns `None` there. Otherwise the three add up to 100. */
  function PercentStockBondInfl(v: ShareValues): (r: Option<Percentages>)
    ensures r.None? <==> AllocationBase(v) == 0.0
    ensures r.Some? ==> r.value.stock + r.value.bond + r.value.inflation == 100.0
    ensures r.Some? && AllocationBase(v) > 0.0 && v.vtip == 0.0 ==> r.value.inflation == 0.0
    ensures r.Some? ==>
      && r.value.stock * AllocationBase(v) == StockHeld(v) * 100.0
      && r.value.bond * AllocationBase(v) == BondHeld(v) * 100.0
      && r.value.inflation * AllocationBase(v) == v.vtip * 100.0
  {
    var totalBond := BondHeld(v);
    var totalStock := StockHeld(v);
    var total := AllocationBase(v);
    if total == 0.0 then None
    else
      assert totalStock + totalBond + v.vtip == total;
      assert totalStock / total + totalBond / total + v.vtip / total == 1.0;
      Some(Percentages(totalStock / total * 100.0, totalBond / total * 100.0, v.vtip / total * 100.0))
  }

  /** Field-wise sum. */
  function Add(a: ShareValues, b: ShareValues): (r: ShareValues)
    ensures forall f :: Get(r, f) == Get(a, f) + Get(b, f)
  {
    ShareValues(a.vxus + b.vxus, a.bndx + b.bndx, a.bnd + b.bnd, a.vwo + b.vwo, a.vo + b.vo,
      a.vb + b.vb, a.vtc + b.vtc, a.vv + b.vv, a.vtip + b.vtip, a.vmfxx + b.vmfxx,
      a.other + b.other, a.outsideBond + b.outsideBond, a.outsideStock + b.outsideStock)
  }

  /** Field-wise difference. */
  function Sub(a: ShareValues, b: ShareValues): (r: ShareValues)
    ensures forall f :: Get(r, f) == Get(a, f) - Get(b, f)
  {
    ShareValues(a.vxus - b.vxus, a.bndx - b.bndx, a.bnd - b.bnd, a.vwo - b.vwo, a.vo - b.vo,
      a.vb - b.vb, a.vtc - b.vtc, a.vv - b.vv, a.vtip - b.vtip, a.vmfxx - b.vmfxx,
      a.other - b.other, a.outsideBond - b.outsideBond, a.outsideStock - b.outsideStock)
  }

  /** Field-wise product, used to price share counts with quotes. */
  function Mul(a: ShareValues, b: ShareValues): (r: ShareValues)
    ensures forall f :: Get(r, f) == Get(a, f) * Get(b, f)
  {
    ShareValues(a.vxus * b.vxus, a.bndx * b.bndx, a.bnd * b.bnd, a.vwo * b.vwo, a.vo * b.vo,
      a.vb * b.vb, a.vtc * b.vtc, a.vv * b.vv, a.vtip * b.vtip, a.vmfxx * b.vmfxx,
      a.other * b.other, a.outsideBond * b.outsideBond, a.outsideStock * b.outsideStock)
  }

  /** No slot is zero: what a quote vector must satisfy before anything is divided by it. */
  predicate NonZero(b: ShareValues) {
    forall f :: Get(b, f) != 0.0
  }

  /** Field-wise quotient, used to turn dollar differences into share counts. */
  function Div(a: ShareValues, b: ShareValues): (r: ShareValues)
    requires NonZero(b)
    ensures forall f :: Get(r, f) == Get(a, f) / Get(b, f)
  {
    assert Get(b, VxusSlot) != 0.0 && Get(b, BndxSlot) != 0.0 && Get(b, BndSlot) != 0.0;
    assert Get(b, VwoSlot) != 0.0 && Get(b, VoSlot) != 0.0 && Get(b, VbSlot) != 0.0;
    assert Get(b, VtcSlot) != 0.0 && Get(b, VvSlot) != 0.0 && Get(b, VtipSlot) != 0.0;
    assert Get(b, VmfxxSlot) != 0.0 && Get(b, OtherSlot) != 0.0;
    assert Get(b, OutsideBondSlot) != 0.0 && Get(b, OutsideStockSlot) != 0.0;
    ShareValues(a.vxus / b.vxus, a.bndx / b.bndx, a.bnd / b.bnd, a.vwo / b.vwo, a.vo / b.vo,
      a.vb / b.vb, a.vtc / b.vtc, a.vv / b.vv, a.vtip / b.vtip, a.vmfxx / b.vmfxx,
      a.other / b.other, a.outsideBond / b.outsideBond, a.outsideStock / b.outsideStock)
  }

  lemma NewQuoteNonZero()
    ensures NonZero(NewQuote())
  {
  }

  /** Adding and then subtracting the same record gives back the original. */
  lemma AddSubCancel(a: ShareValues, b: ShareValues)
    ensures Sub(Add(a, b), b) == a
  {
    SlotwiseEqual(Sub(Add(a, b), b), a);
  }

  /** Multiplying and then dividing by the same nonzero number cancels. */
  lemma MulDivCancelReal(x: real, y: real)
    requires y != 0.0
    ensures (x * y) / y == x
  {
  }

  /** Multiplying and then dividing by a record without zero slots gives back the original. */
  lemma MulDivCancel(a: ShareValues, b: ShareValues)
    requires NonZero(b)
    ensures Div(Mul(a, b), b) == a
  {
    var m := Mul(a, b);
    forall f
      ensures Get(Div(m, b), f) == Get(a, f)
    {
      var x, y := Get(a, f), Get(b, f);
      assert Get(m, f) == x * y;
      MulDivCancelReal(x, y);
      assert Get(Div(m, b), f) == (x * y) / y;
    }
    SlotwiseEqual(Div(m, b), a);
  }

  /** Dividing by, or multiplying with, the all-one quote vector changes nothing. */
  lemma QuoteIdentity(a: ShareValues)
    ensures Div(a, NewQuote()) == a
    ensures Mul(a, NewQuote()) == a
  {
    SlotwiseEqual(Div(a, NewQuote()), a);
    SlotwiseEqual(Mul(a, NewQuote()), a);
  }

  /** The total is additive over the field-wise sum and difference. */
  lemma TotalValueLinear(a: ShareValues, b: ShareValues)
    ensures TotalValue(Add(a, b)) == TotalValue(a) + TotalValue(b)
    ensures TotalValue(Sub(a, b)) == TotalValue(a) - TotalValue(b)
  {
  }

  /** A difference of equal records is zero in every slot, so is its quotient. */
  lemma SameRecordZeroDelta(a: ShareValues, q: ShareValues)
    requires NonZero(q)
    ensures Div(Sub(a, a), q) == Zero()
  {
    assert Get(q, VxusSlot) != 0.0;
    assert Get(q, BndxSlot) != 0.0;
    assert Get(q, BndSlot) != 0.0;
    assert Get(q, VwoSlot) != 0.0;
    assert Get(q, VoSlot) != 0.0;
    assert Get(q, VbSlot) != 0.0;
    assert Get(q, VtcSlot) != 0.0;
    assert Get(q, VvSlot) != 0.0;
    assert Get(q, VtipSlot) != 0.0;
    assert Get(q, VmfxxSlot) != 0.0;
    assert Get(q, OtherSlot) != 0.0;
    assert Get(q, OutsideBondSlot) != 0.0;
    assert Get(q, OutsideStockSlot) != 0.0;
  }

  /** The target holdings for a total (the account value plus the amounts held
      outside) split by a sub-allocation. Each fund's share of the grand total is
      reduced by the part of the outside holdings that stands in for it: US stock
      by thirds, international stock two thirds / one third, US bonds by halves,
      international bonds in full. Cash and the unsupported bucket get no target.
      `NewTargetWorth` shows that, for a sub-allocation summing to 100, the
      custodial target is worth exactly the account value passed in. */
  function NewTarget(sub: SubAllocations, totalVanguardValue: real, otherUsStockValue: real,
                     otherUsBondValue: real, otherIntStockValue: real, otherIntBondValue: real): (r: ShareValues)
    ensures r.vmfxx == 0.0 && r.other == 0.0
    ensures r.outsideBond == otherIntBondValue + otherUsBondValue
    ensures r.outsideStock == otherUsStockValue + otherIntStockValue
  {
    Spread(sub, totalVanguardValue + otherUsStockValue + otherUsBondValue + otherIntBondValue + otherIntStockValue,
           otherUsStockValue, otherUsBondValue, otherIntStockValue, otherIntBondValue)
  }

  /** The grand total spread over the funds by the sub-allocation, each fund less
      the outside part that stands in for it. */
  function Spread(sub: SubAllocations, grand: real, usStock: real, usBond: real, intStock: real, intBond: real): ShareValues {
    ShareValues(
      (grand * sub.intTotStock / 100.0) - (intStock * 2.0 / 3.0),
      (grand * sub.intBond / 100.0) - intBond,
      (grand * sub.usTotBond / 100.0) - (usBond / 2.0),
      (grand * sub.intEmergingStock / 100.0) - (intStock / 3.0),
      (grand * sub.usStockMid / 100.0) - (usStock / 3.0),
      (grand * sub.usStockSmall / 100.0) - (usStock / 3.0),
      (grand * sub.usCorpBond / 100.0) - (usBond / 2.0),
      (grand * sub.usStockLarge / 100.0) - (usStock / 3.0),
      grand * sub.inflationProtected / 100.0,
      0.0,
      0.0,
      intBond + usBond,
      usStock + intStock)
  }

  /** The target is worth the grand total times the sub-allocation's sum, less
      what is held outside; so for a sub-allocation summing to 100 it is worth
      exactly the account value. */
  lemma NewTargetWorth(sub: SubAllocations, total: real, usStock: real, usBond: real, intStock: real, intBond: real)
    ensures var r, grand := NewTarget(sub, total, usStock, usBond, intStock, intBond), total + usStock + usBond + intBond + intStock;
      TotalValue(r) == grand * SubTotal(sub) / 100.0 - (usStock + usBond + intStock + intBond)
    ensures SubTotal(sub) == 100.0 ==> TotalValue(NewTarget(sub, total, usStock, usBond, intStock, intBond)) == total
  {
    var grand := total + usStock + usBond + intBond + intStock;
    var r := NewTarget(sub, total, usStock, usBond, intStock, intBond);
    NewTargetStock(sub, total, usStock, usBond, intStock, intBond);
    NewTargetBond(sub, total, usStock, usBond, intStock, intBond);
    assert TotalValue(r) == StockHeld(r) - r.outsideStock + BondHeld(r) - r.outsideBond + r.vtip;
    PercentOfParts(grand, sub);
    if SubTotal(sub) == 100.0 {
      PercentOfHundred(grand, SubTotal(sub));
    }
  }

  /** A percentage of the sub-allocation's sum is the sum of the percentages of its
      stock, bond and inflation-protected parts. */
  lemma PercentOfParts(g: real, sub: SubAllocations)
    ensures g * SubTotal(sub) / 100.0 == g * StockPart(sub) / 100.0 + g * BondPart(sub) / 100.0 + g * sub.inflationProtected / 100.0
  {
    var t := StockPart(sub) + BondPart(sub) + sub.inflationProtected;
    assert SubTotal(sub) == t;
    PercentOfSum(g, StockPart(sub), BondPart(sub));
    PercentOfSum(g, StockPart(sub) + BondPart(sub), sub.inflationProtected);
  }

  lemma PercentOfHundred(g: real, p: real)
    requires p == 100.0
    ensures g * p / 100.0 == g
  {
  }

  /** The target realises the allocation over the grand total (account value plus
      everything held outside): the stock held, counting the outside stock, is the
      grand total times the stock percentage; likewise bonds and the
      inflation-protected fund. */
  lemma {:induction false} NewTargetSplit(sub: SubAllocations, total: real, usStock: real, usBond: real, intStock: real, intBond: real)
    ensures var r := NewTarget(sub, total, usStock, usBond, intStock, intBond);
      var grand := total + usStock + usBond + intBond + intStock;
      && StockHeld(r) == grand * StockPart(sub) / 100.0
      && BondHeld(r) == grand * BondPart(sub) / 100.0
      && r.vtip == grand * sub.inflationProtected / 100.0
  {
    NewTargetStock(sub, total, usStock, usBond, intStock, intBond);
    NewTargetBond(sub, total, usStock, usBond, intStock, intBond);
  }

  lemma NewTargetStock(sub: SubAllocations, total: real, usStock: real, usBond: real, intStock: real, intBond: real)
    ensures var grand := total + usStock + usBond + intBond + intStock;
      StockHeld(NewTarget(sub, total, usStock, usBond, intStock, intBond)) == grand * StockPart(sub) / 100.0
  {
    var grand := total + usStock + usBond + intBond + intStock;
    NewTargetIsSpread(sub, total, usStock, usBond, intStock, intBond, grand);
    PercentOfFive(grand, sub.usStockLarge, sub.usStockMid, sub.usStockSmall, sub.intTotStock, sub.intEmergingStock);
  }

  lemma NewTargetBond(sub: SubAllocations, total: real, usStock: real, usBond: real, intStock: real, intBond: real)
    ensures var r, grand := NewTarget(sub, total, usStock, usBond, intStock, intBond), total + usStock + usBond + intBond + intStock;
      && BondHeld(r) == grand * BondPart(sub) / 100.0
      && r.vtip == grand * sub.inflationProtected / 100.0
  {
    var grand := total + usStock + usBond + intBond + intStock;
    NewTargetIsSpread(sub, total, usStock, usBond, intStock, intBond, grand);
    PercentOfSum(grand, sub.usTotBond, sub.usCorpBond);
    PercentOfSum(grand, sub.usTotBond + sub.usCorpBond, sub.intBond);
  }

  /** The target is the grand total spread over the funds. */
  lemma NewTargetIsSpread(sub: SubAllocations, total: real, usStock: real, usBond: real, intStock: real, intBond: real, grand: real)
    requires grand == total + usStock + usBond + intBond + intStock
    ensures NewTarget(sub, total, usStock, usBond, intStock, intBond) == Spread(sub, grand, usStock, usBond, intStock, intBond)
  {
  }

  /** A percentage of a five-part sum is the sum of the five percentages. */
  lemma PercentOfFive(g: real, a: real, b: real, c: real, d: real, e: real)
    ensures g * (a + b + c + d + e) / 100.0 == g * a / 100.0 + g * b / 100.0 + g * c / 100.0 + g * d / 100.0 + g * e / 100.0
  {
    PercentOfSum(g, a, b);
    PercentOfSum(g, a + b, c);
    PercentOfSum(g, a + b + c, d);
    PercentOfSum(g, a + b + c + d, e);
  }

  /** A percentage of a sum is the sum of the percentages. */
  lemma PercentOfSum(g: real, a: real, b: real)
    ensures g * (a + b) / 100.0 == g * a / 100.0 + g * b / 100.0
  {
  }

  /** With nothing held outside, every fund's target is the total times its
      percentage, and the outside slots are zero. */
  lemma NewTargetWithoutOutside(sub: SubAllocations, total: real)
    ensures var r := NewTarget(sub, total, 0.0, 0.0, 0.0, 0.0);
      && r.vv == total * sub.usStockLarge / 100.0
      && r.vo == total * sub.usStockMid / 100.0
      && r.vb == total * sub.usStockSmall / 100.0
      && r.bnd == total * sub.usTotBond / 100.0
      && r.vtc == total * sub.usCorpBond / 100.0
      && r.vxus == total * sub.intTotStock / 100.0
      && r.vwo == total * sub.intEmergingStock / 100.0
      && r.bndx == total * sub.intBond / 100.0
      && r.vtip == total * sub.inflationProtected / 100.0
      && r.outsideBond == 0.0 && r.outsideStock == 0.0
  {
  }

  /** What a `StockInfo` field feeds into a record: a price, a dollar value or a
      share count. */
  datatype AddType = StockPrice | HoldingValue | HoldingShares

  /** A holdings row while it is being read: each field has a flag that turns on
      when the field is filled in. */
  class StockInfo {
    var accountNumber: nat
    var symbol: StockSymbol
    var sharePrice: real
    var shares: real
    var totalValue: real
    var accountAdded: bool
    var symbolAdded: bool
    var sharePriceAdded: bool
    var sharesAdded: bool
    var totalValueAdded: bool

    constructor ()
      ensures accountNumber == 0 && symbol == Empty && sharePrice == 0.0 && shares == 0.0 && totalValue == 0.0
      ensures !accountAdded && !symbolAdded && !sharePriceAdded && !sharesAdded && !totalValueAdded
      ensures !Finished()
    {
      accountNumber, symbol, sharePrice, shares, totalValue := 0, Empty, 0.0, 0.0, 0.0;
      accountAdded, symbolAdded, sharePriceAdded, sharesAdded, totalValueAdded := false, false, false, false, false;
    }

    method AddAccount(n: nat)
      modifies this`accountNumber, this`accountAdded
      ensures accountNumber == n && accountAdded
    {
      accountNumber, accountAdded := n, true;
    }

    method AddSymbol(s: StockSymbol)
      modifies this`symbol, this`symbolAdded
      ensures symbol == s && symbolAdded
    {
      symbol, symbolAdded := s, true;
    }

    method AddSharePrice(p: real)
      modifies this`sharePrice, this`sharePriceAdded
      ensures sharePrice == p && sharePriceAdded
    {
      sharePrice, sharePriceAdded := p, true;
    }

    method AddShares(n: real)
      modifies this`shares, this`sharesAdded
      ensures shares == n && sharesAdded
    {
      shares, sharesAdded := n, true;
    }

    method AddTotalValue(x: real)
      modifies this`totalValue, this`totalValueAdded
      ensures totalValue == x && totalValueAdded
    {
      totalValue, totalValueAdded := x, true;
    }

    /** All five fields have been filled in. */
    predicate Finished()
      reads this
    {
      accountAdded && symbolAdded && sharePriceAdded && sharesAdded && totalValueAdded
    }
  }

  /** A row read field by field, in the order the documented example uses: once
      the account, symbol, price, total value and share count are in, the row is
      finished and holds exactly those values. */
  method CompleteRow(account: nat, symbol: StockSymbol, price: real, total: real, count: real)
    returns (info: StockInfo)
    ensures fresh(info) && info.Finished()
    ensures info.accountNumber == account && info.symbol == symbol
    ensures info.sharePrice == price && info.totalValue == total && info.shares == count
  {
    info := new StockInfo();
    info.AddAccount(account);
    info.AddSymbol(symbol);
    info.AddSharePrice(price);
    info.AddTotalValue(total);
    info.AddShares(count);
  }

  /** The row field an `AddType` picks. */
  function Picked(info: StockInfo, addType: AddType): real
    reads info
  {
    match addType
    case StockPrice => info.sharePrice
    case HoldingValue => info.totalValue
    case HoldingShares => info.shares
  }

  /** Folds a finished holdings row into a record. A known fund takes the picked
      value in its slot. An unsupported ticker adds its dollar value to the shared
      bucket, and sets that bucket's price and share count to 1. An `Empty`
      symbol is a caller error. No other slot changes. */
  function AddStockinfoValue(v: ShareValues, info: StockInfo, addType: AddType): (r: ShareValues)
    reads info
    requires info.symbol != Empty
    ensures IsKnown(info.symbol) ==> StockValue(r, info.symbol) == Picked(info, addType)
    ensures info.symbol.Other? ==>
      r.other == if addType == HoldingValue then v.other + info.totalValue else 1.0
    ensures forall f :: f != SlotOf(info.symbol) ==> Get(r, f) == Get(v, f)
  {
    var value := Picked(info, addType);
    if info.symbol.Other? then
      if addType == HoldingValue then Set(v, OtherSlot, v.other + value) else Set(v, OtherSlot, 1.0)
    else AddStockValue(v, info.symbol, value)
  }

  /** Current, target and buy/sell (in shares) records of one account. */
  datatype AccountHoldings = AccountHoldings(current: ShareValues, target: ShareValues, salePurchasesNeeded: ShareValues)

  function DefaultAccountHoldings(): AccountHoldings {
    AccountHoldings(Zero(), Zero(), Zero())
  }

  datatype HoldingType = Brokerage | TraditionalIra | RothIra

  /** The result of one rebalance: an account record per account kind and the
      pooled retirement target. */
  class VanguardRebalance {
    var brokerage: AccountHoldings
    var traditionalIra: AccountHoldings
    var rothIra: AccountHoldings
    var retirementTarget: ShareValues

    constructor ()
      ensures brokerage == traditionalIra == rothIra == DefaultAccountHoldings()
      ensures retirementTarget == Zero()
    {
      brokerage, traditionalIra, rothIra := DefaultAccountHoldings(), DefaultAccountHoldings(), DefaultAccountHoldings();
      retirementTarget := Zero();
    }

    /** Stores an account record under its kind; the other two are kept. */
    method AddAccountHoldings(h: AccountHoldings, kind: HoldingType)
      modifies this`brokerage, this`traditionalIra, this`rothIra
      ensures brokerage == if kind == Brokerage then h else old(brokerage)
      ensures traditionalIra == if kind == TraditionalIra then h else old(traditionalIra)
      ensures rothIra == if kind == RothIra then h else old(rothIra)
    {
      match kind
      case Brokerage => brokerage := h;
      case TraditionalIra => traditionalIra := h;
      case RothIra => rothIra := h;
    }

    method AddRetirementTarget(t: ShareValues)
      modifies this`retirementTarget
      ensures retirementTarget == t
    {
      retirementTarget := t;
    }
  }
}
