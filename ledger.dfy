/** The holdings store and its transaction ledger: per-account dollar values and
    share counts, the quote vector, the list of transactions and the
    distributions-taken map, and the replay of the ledger back to the December 31
    snapshot of the year before a distribution year. Dates are day numbers counted
    from the start of the common era (1 January of year 1 is day 1). */
module Ledger {
  import opened Wrappers
  import opened Holdings

  /** The range of years the date type accepts. */
  const MinYear: int := -262144
  const MaxYear: int := 262143

  const TwoTo31: int := 0x8000_0000
  const TwoTo32: int := 0x1_0000_0000

  /** The kind of a ledger row; labels the resolver does not know are kept in `OtherType`. */
  datatype TransactionType =
    | ConversionOut | Dividend | Reinvestment | AdvisorFee | Buy | ConversionIn
    | Sell | FundsReceived | SweepOut | SweepIn | Distribution | OtherType(name: string)

  /** The labels the resolver recognises. */
  const KnownLabels: seq<string> := ["Conversion (outgoing)", "Dividend", "Reinvestment", "Advisor fee", "Buy",
    "Conversion (incoming)", "Sell", "Funds Received", "Sweep out", "Sweep in", "Distribution"]

  /** The label a kind is written as in an export. */
  function Label(t: TransactionType): string {
    match t
    case ConversionOut => "Conversion (outgoing)"
    case Dividend => "Dividend"
    case Reinvestment => "Reinvestment"
    case AdvisorFee => "Advisor fee"
    case Buy => "Buy"
    case ConversionIn => "Conversion (incoming)"
    case Sell => "Sell"
    case FundsReceived => "Funds Received"
    case SweepOut => "Sweep out"
    case SweepIn => "Sweep in"
    case Distribution => "Distribution"
    case OtherType(s) => s
  }

  /** Resolves a label: the result always spells the input back, and the eleven
      known labels and only they give a named kind. */
  function NewTransactionType(text: string): (r: TransactionType)
    ensures Label(r) == text
    ensures r.OtherType? <==> text !in KnownLabels
  {
    if text == "Conversion (outgoing)" then ConversionOut
    else if text == "Dividend" then Dividend
    else if text == "Reinvestment" then Reinvestment
    else if text == "Advisor fee" then AdvisorFee
    else if text == "Buy" then Buy
    else if text == "Conversion (incoming)" then ConversionIn
    else if text == "Sell" then Sell
    else if text == "Funds Received" then FundsReceived
    else if text == "Sweep out" then SweepOut
    else if text == "Sweep in" then SweepIn
    else if text == "Distribution" then Distribution
    else OtherType(text)
  }

  /** Resolution inverts `Label` on every kind the resolver can produce. */
  lemma TransactionTypeRoundTrip(t: TransactionType)
    requires t.OtherType? ==> t.name !in KnownLabels
    ensures NewTransactionType(Label(t)) == t
  {
  }

  /** One ledger row. */
  datatype Transaction = Transaction(
    accountNumber: nat,
    tradeDate: int,
    symbol: StockSymbol,
    shares: real,
    netAmount: real,
    transactionType: TransactionType)

  /** The day number of December 31 of a year: the days of all years up to and
      including it in the proleptic Gregorian calendar. */
  function Dec31(year: int): int {
    365 * year + year / 4 - year / 100 + year / 400
  }

  /** A 32-bit unsigned year read as a signed 32-bit integer. */
  function I32Of(year: nat): int
    requires year < TwoTo32
  {
    if year < TwoTo31 then year else year - TwoTo32
  }

  /** What a year argument must satisfy for the replay not to abort: it fits in
      32 bits, its decrement does not overflow, and December 31 of the year before
      plus 365 days is still a representable date. */
  predicate YearArgOk(year: nat) {
    year < TwoTo32 && year != TwoTo31 && I32Of(year) - 1 != MaxYear
  }

  /** The year whose December 31 is the replay boundary. */
  function BoundaryYear(year: nat): int
    requires year < TwoTo32
  {
    I32Of(year) - 1
  }

  /** Whether the boundary is a representable date. */
  predicate DateOk(year: nat)
    requires year < TwoTo32
  {
    MinYear <= BoundaryYear(year) <= MaxYear
  }

  /** A row the replay undoes: dated after the boundary and booked to the account. */
  predicate Passes(t: Transaction, boundary: int, acct: nat) {
    t.tradeDate > boundary && t.accountNumber == acct
  }

  /** A passing row that is counted as a distribution: no symbol, kind
      `Distribution`, dated less than 365 days after the boundary. */
  predicate CountsAsDistribution(t: Transaction, boundary: int, acct: nat) {
    Passes(t, boundary, acct) && t.symbol == Empty && t.transactionType == Distribution
    && t.tradeDate < boundary + 365
  }

  /** Undoes one passing row on a holdings record: cash rows by their net amount,
      other symbols by their share count; rows without a symbol change nothing. */
  function ReplayRow(h: ShareValues, t: Transaction): ShareValues {
    if t.symbol == VMFXX then SubtractStockValue(h, t.symbol, t.netAmount)
    else if t.symbol != Empty then SubtractStockValue(h, t.symbol, t.shares)
    else h
  }

  /** The holdings after undoing every passing row, in ledger order. */
  function Replay(h: ShareValues, txs: seq<Transaction>, boundary: int, acct: nat): ShareValues {
    if txs == [] then h
    else
      var prior := Replay(h, txs[..|txs| - 1], boundary, acct);
      var t := txs[|txs| - 1];
      if Passes(t, boundary, acct) then ReplayRow(prior, t) else prior
  }

  /** The amount one row takes out of a slot when undone. */
  function RowAmount(t: Transaction, f: Slot): real {
    if t.symbol == Empty || SlotOf(t.symbol) != f then 0.0
    else if t.symbol == VMFXX then t.netAmount
    else t.shares
  }

  /** The total the passing rows take out of a slot. */
  function RemovedFrom(txs: seq<Transaction>, boundary: int, acct: nat, f: Slot): real {
    if txs == [] then 0.0
    else
      var t := txs[|txs| - 1];
      RemovedFrom(txs[..|txs| - 1], boundary, acct, f) + (if Passes(t, boundary, acct) then RowAmount(t, f) else 0.0)
  }

  /** The number of passing rows. */
  function PassingCount(txs: seq<Transaction>, boundary: int, acct: nat): nat {
    if txs == [] then 0
    else PassingCount(txs[..|txs| - 1], boundary, acct) + (if Passes(txs[|txs| - 1], boundary, acct) then 1 else 0)
  }

  /** Whether some row does not pass: one dated on or before the boundary, or one
      booked to any other account. */
  predicate HasOlder(txs: seq<Transaction>, boundary: int, acct: nat) {
    txs != [] && (HasOlder(txs[..|txs| - 1], boundary, acct) || !Passes(txs[|txs| - 1], boundary, acct))
  }

  /** The recorded value for an account, 0 when there is none. */
  function DistributionOf(m: map<nat, real>, acct: nat): real {
    if acct in m then m[acct] else 0.0
  }

  /** The distributions map after the replay has visited every row. */
  function DistributionsAfter(m: map<nat, real>, txs: seq<Transaction>, boundary: int, acct: nat): map<nat, real> {
    if txs == [] then m
    else
      var prior := DistributionsAfter(m, txs[..|txs| - 1], boundary, acct);
      var t := txs[|txs| - 1];
      if CountsAsDistribution(t, boundary, acct) then prior[acct := DistributionOf(prior, acct) - t.netAmount] else prior
  }

  /** Extending the replayed prefix by one row: each replay function takes one
      more step on that row. */
  lemma ReplayStep(h: ShareValues, m: map<nat, real>, txs: seq<Transaction>, i: nat, boundary: int, acct: nat)
    requires i < |txs|
    ensures var t, prefix := txs[i], txs[..i];
      && Replay(h, txs[..i + 1], boundary, acct) == (if Passes(t, boundary, acct) then ReplayRow(Replay(h, prefix, boundary, acct), t) else Replay(h, prefix, boundary, acct))
      && PassingCount(txs[..i + 1], boundary, acct) == PassingCount(prefix, boundary, acct) + (if Passes(t, boundary, acct) then 1 else 0)
      && (HasOlder(txs[..i + 1], boundary, acct) <==> HasOlder(prefix, boundary, acct) || !Passes(t, boundary, acct))
      && DistributionsAfter(m, txs[..i + 1], boundary, acct)
         == (var prior := DistributionsAfter(m, prefix, boundary, acct);
             if CountsAsDistribution(t, boundary, acct) then prior[acct := DistributionOf(prior, acct) - t.netAmount] else prior)
  {
    assert txs[..i + 1][..i] == txs[..i];
  }

  /** The net amounts of the rows counted as distributions, added up. */
  function Distributed(txs: seq<Transaction>, boundary: int, acct: nat): real {
    if txs == [] then 0.0
    else
      var t := txs[|txs| - 1];
      Distributed(txs[..|txs| - 1], boundary, acct) + (if CountsAsDistribution(t, boundary, acct) then t.netAmount else 0.0)
  }

  lemma {:induction false} PassingCountPositive(txs: seq<Transaction>, boundary: int, acct: nat)
    ensures PassingCount(txs, boundary, acct) > 0 <==> exists i :: 0 <= i < |txs| && Passes(txs[i], boundary, acct)
  {
    if txs != [] {
      var init := txs[..|txs| - 1];
      PassingCountPositive(init, boundary, acct);
      if exists i :: 0 <= i < |init| && Passes(init[i], boundary, acct) {
        var i :| 0 <= i < |init| && Passes(init[i], boundary, acct);
        assert txs[i] == init[i];
      }
      if exists i :: 0 <= i < |txs| && Passes(txs[i], boundary, acct) {
        var i :| 0 <= i < |txs| && Passes(txs[i], boundary, acct);
        if i < |init| { assert init[i] == txs[i]; }
      }
    }
  }

  lemma {:induction false} HasOlderExists(txs: seq<Transaction>, boundary: int, acct: nat)
    ensures HasOlder(txs, boundary, acct) <==> exists i :: 0 <= i < |txs| && !Passes(txs[i], boundary, acct)
  {
    if txs != [] {
      var init := txs[..|txs| - 1];
      HasOlderExists(init, boundary, acct);
      if exists i :: 0 <= i < |init| && !Passes(init[i], boundary, acct) {
        var i :| 0 <= i < |init| && !Passes(init[i], boundary, acct);
        assert txs[i] == init[i];
      }
      if exists i :: 0 <= i < |txs| && !Passes(txs[i], boundary, acct) {
        var i :| 0 <= i < |txs| && !Passes(txs[i], boundary, acct);
        if i < |init| { assert init[i] == txs[i]; }
      }
    }
  }

  /** Every slot of the replayed holdings is the current value less what the
      passing rows take out of it; in particular the two outside slots, which no
      symbol reaches, are never changed. */
  lemma {:induction false} ReplaySlots(h: ShareValues, txs: seq<Transaction>, boundary: int, acct: nat)
    ensures forall f :: Get(Replay(h, txs, boundary, acct), f) == Get(h, f) - RemovedFrom(txs, boundary, acct, f)
  {
    if txs != [] {
      var init := txs[..|txs| - 1];
      ReplaySlots(h, init, boundary, acct);
      var t := txs[|txs| - 1];
      var prior := Replay(h, init, boundary, acct);
      forall f ensures Get(Replay(h, txs, boundary, acct), f) == Get(h, f) - RemovedFrom(txs, boundary, acct, f) {
        if Passes(t, boundary, acct) && t.symbol != Empty {
          assert Get(ReplayRow(prior, t), f) == Get(prior, f) - RowAmount(t, f);
        }
      }
    }
  }

  /** The replay boundary for a year argument, when it is a representable date. */
  function Boundary(year: nat): int
    requires year < TwoTo32
  {
    Dec31(BoundaryYear(year))
  }

  /** The December 31 snapshot of the year before `year`: `None` when the boundary
      is not a date, when no row fails the test (the history may not reach back to
      the boundary), or when no row passes it; otherwise every slot is the current
      holding less what the passing rows take out of it. */
  function EoySnapshot(h: ShareValues, txs: seq<Transaction>, year: nat, acct: nat): (r: Option<ShareValues>)
    requires year < TwoTo32
    ensures r.Some? <==>
      && DateOk(year)
      && (exists i :: 0 <= i < |txs| && !Passes(txs[i], Boundary(year), acct))
      && (exists i :: 0 <= i < |txs| && Passes(txs[i], Boundary(year), acct))
    ensures r.Some? ==> forall f :: Get(r.value, f) == Get(h, f) - RemovedFrom(txs, Boundary(year), acct, f)
  {
    var b := Boundary(year);
    HasOlderExists(txs, b, acct);
    PassingCountPositive(txs, b, acct);
    ReplaySlots(h, txs, b, acct);
    if !DateOk(year) then None
    else if !HasOlder(txs, b, acct) then None
    else if PassingCount(txs, b, acct) == 0 then None
    else Some(Replay(h, txs, b, acct))
  }

  /** After the replay the account's recorded distributions have dropped by the
      net amounts of the rows counted as distributions, the account has an entry
      if it had one or some row counted, and every other account is untouched. */
  lemma {:induction false} DistributionsAfterEffect(m: map<nat, real>, txs: seq<Transaction>, boundary: int, acct: nat)
    ensures var m' := DistributionsAfter(m, txs, boundary, acct);
      && DistributionOf(m', acct) == DistributionOf(m, acct) - Distributed(txs, boundary, acct)
      && (acct in m' <==> acct in m || exists i :: 0 <= i < |txs| && CountsAsDistribution(txs[i], boundary, acct))
      && (forall k :: k != acct ==> (k in m' <==> k in m) && (k in m ==> m'[k] == m[k]))
  {
    if txs != [] {
      var init := txs[..|txs| - 1];
      DistributionsAfterEffect(m, init, boundary, acct);
      if exists i :: 0 <= i < |init| && CountsAsDistribution(init[i], boundary, acct) {
        var i :| 0 <= i < |init| && CountsAsDistribution(init[i], boundary, acct);
        assert txs[i] == init[i];
      }
      if exists i :: 0 <= i < |txs| && CountsAsDistribution(txs[i], boundary, acct) {
        var i :| 0 <= i < |txs| && CountsAsDistribution(txs[i], boundary, acct);
        if i < |init| { assert init[i] == txs[i]; }
      }
    }
  }

  /** A second replay over the same ledger takes the distributed amount off again:
      the map accumulates across calls rather than being recomputed. */
  lemma ReplayTwiceDoublesDistributions(m: map<nat, real>, txs: seq<Transaction>, boundary: int, acct: nat)
    ensures DistributionOf(DistributionsAfter(DistributionsAfter(m, txs, boundary, acct), txs, boundary, acct), acct)
      == DistributionOf(m, acct) - 2.0 * Distributed(txs, boundary, acct)
  {
    DistributionsAfterEffect(m, txs, boundary, acct);
    DistributionsAfterEffect(DistributionsAfter(m, txs, boundary, acct), txs, boundary, acct);
  }

  /** The December 31 value: the snapshot priced with year-end quotes. */
  function EoyValueOf(h: ShareValues, txs: seq<Transaction>, year: nat, acct: nat, eoyQuotes: ShareValues): (r: Option<real>)
    requires year < TwoTo32
    ensures r.Some? <==> EoySnapshot(h, txs, year, acct).Some?
    ensures r.Some? ==> r.value == TotalValue(Mul(EoySnapshot(h, txs, year, acct).value, eoyQuotes))
  {
    match EoySnapshot(h, txs, year, acct)
    case None => None
    case Some(s) => Some(TotalValue(Mul(s, eoyQuotes)))
  }

  /** The holdings store built from one export. */
  class VanguardHoldings {
    var accountsValues: map<nat, ShareValues>
    var accountsShares: map<nat, ShareValues>
    var quotes: ShareValues
    var transactions: seq<Transaction>
    var distributions: map<nat, real>

    /** A store holding only quotes; accounts and ledger are empty. */
    constructor New(quotes: ShareValues)
      ensures this.quotes == quotes
      ensures accountsValues == map[] && accountsShares == map[] && transactions == [] && distributions == map[]
    {
      this.quotes := quotes;
      accountsValues, accountsShares, transactions, distributions := map[], map[], [], map[];
    }

    /** A store as the export reader leaves it: the aggregated accounts, quotes and
        ledger, and no distributions recorded yet. */
    constructor Parsed(values: map<nat, ShareValues>, shares: map<nat, ShareValues>, quotes: ShareValues, transactions: seq<Transaction>)
      ensures accountsValues == values && accountsShares == shares && this.quotes == quotes
      ensures this.transactions == transactions && distributions == map[]
    {
      accountsValues, accountsShares, this.quotes := values, shares, quotes;
      this.transactions, distributions := transactions, map[];
    }

    /** The distributions recorded for an account, 0 when none are. */
    function Distributions(acct: nat): (r: real)
      reads this
      ensures acct in distributions ==> r == distributions[acct]
      ensures acct !in distributions ==> r == 0.0
    {
      DistributionOf(distributions, acct)
    }

    /** Replays the ledger back to December 31 of the year before `year` for one
        account. The result is `EoySnapshot`; as a side effect the rows counted as
        distributions are taken off the account's entry in `distributions`,
        whatever the result (and nothing changes when the boundary is not a date). */
    method EoyTraditionalHoldings(year: nat, acct: nat, tradHoldings: ShareValues) returns (r: Option<ShareValues>)
      requires YearArgOk(year)
      modifies this`distributions
      ensures r == EoySnapshot(tradHoldings, transactions, year, acct)
      ensures distributions == if DateOk(year) then DistributionsAfter(old(distributions), transactions, Boundary(year), acct)
                               else old(distributions)
    {
      var enoughTransaction := false;
      var totalTransactions: nat := 0;
      var eoyHoldings := tradHoldings;
      if !DateOk(year) {
        return None;
      }
      var txs := transactions;
      var previousYear := Boundary(year);
      var followingYear := previousYear + 365;
      var i := 0;
      while i < |txs|
        invariant 0 <= i <= |txs|
        invariant eoyHoldings == Replay(tradHoldings, txs[..i], previousYear, acct)
        invariant totalTransactions == PassingCount(txs[..i], previousYear, acct)
        invariant enoughTransaction == HasOlder(txs[..i], previousYear, acct)
        invariant distributions == DistributionsAfter(old(distributions), txs[..i], previousYear, acct)
      {
        var t := txs[i];
        ReplayStep(tradHoldings, old(distributions), txs, i, previousYear, acct);
        if t.tradeDate > previousYear && t.accountNumber == acct {
          totalTransactions := totalTransactions + 1;
          if t.symbol == VMFXX {
            eoyHoldings := SubtractStockValue(eoyHoldings, t.symbol, t.netAmount);
          } else if t.symbol != Empty {
            eoyHoldings := SubtractStockValue(eoyHoldings, t.symbol, t.shares);
          } else if t.transactionType == Distribution {
            if t.tradeDate < followingYear {
              var distribution := if t.accountNumber in distributions then distributions[t.accountNumber] else 0.0;
              distributions := distributions[t.accountNumber := distribution - t.netAmount];
            }
          }
        } else {
          enoughTransaction := true;
        }
        i := i + 1;
      }
      assert txs[..i] == txs;
      if !enoughTransaction {
        r := None;
      } else if totalTransactions == 0 {
        r := None;
      } else {
        r := Some(eoyHoldings);
      }
    }

    /** The December 31 value of the account as the source computes it: the replay
        starts from the account's dollar values (see `EoyValueUnitsMismatch`). */
    method EoyValue(year: nat, acct: nat, eoyQuotes: ShareValues) returns (r: Option<real>)
      requires YearArgOk(year)
      modifies this`distributions
      ensures r == EoyValueOf(HoldingOf(old(accountsValues), acct), transactions, year, acct, eoyQuotes)
      ensures distributions == if DateOk(year) then DistributionsAfter(old(distributions), transactions, Boundary(year), acct)
                               else old(distributions)
    {
      var tradHoldings := HoldingOf(accountsValues, acct);
      var holdings := EoyTraditionalHoldings(year, acct, tradHoldings);
      match holdings
      case None => r := None;
      case Some(h) => r := Some(TotalValue(Mul(h, eoyQuotes)));
    }

    /** The December 31 value with the replay started from the account's share
        counts, which is what the row subtraction and the repricing assume. The
        unsupported bucket has no share count and is quoted at 1, so it starts
        from its dollar value (see `ReplayStart`). */
    method EoyValueByShares(year: nat, acct: nat, eoyQuotes: ShareValues) returns (r: Option<real>)
      requires YearArgOk(year)
      requires YearEndQuotes(eoyQuotes)
      modifies this`distributions
      ensures r == EoyValueOf(ReplayStart(HoldingOf(old(accountsShares), acct), HoldingOf(old(accountsValues), acct)),
                              transactions, year, acct, eoyQuotes)
      ensures distributions == if DateOk(year) then DistributionsAfter(old(distributions), transactions, Boundary(year), acct)
                               else old(distributions)
    {
      var tradHoldings := ReplayStart(HoldingOf(accountsShares, acct), HoldingOf(accountsValues, acct));
      var holdings := EoyTraditionalHoldings(year, acct, tradHoldings);
      match holdings
      case None => r := None;
      case Some(h) => r := Some(TotalValue(Mul(h, eoyQuotes)));
    }
  }

  /** The record the corrected replay starts from: the share counts of the funds
      and cash, and the dollar value of the unsupported bucket, whose share record
      only flags that something is held. */
  function ReplayStart(shares: ShareValues, values: ShareValues): (r: ShareValues)
    ensures forall f :: Get(r, f) == if f == OtherSlot then Get(values, f) else Get(shares, f)
  {
    shares.(other := values.other)
  }

  /** Year-end quotes as the source builds them: the all-one quote record with
      only the nine funds' quotes fetched, so cash, the unsupported bucket and the
      outside amounts stay priced at 1. */
  predicate YearEndQuotes(q: ShareValues) {
    q.vmfxx == 1.0 && q.other == 1.0 && q.outsideBond == 1.0 && q.outsideStock == 1.0
  }

  /** The all-one record is a year-end quote record, and storing a fund's quote
      keeps it one. */
  lemma YearEndQuotesBuilt(q: ShareValues, s: StockSymbol, x: real)
    requires YearEndQuotes(q)
    requires IsKnown(s) && s != VMFXX
    ensures YearEndQuotes(NewQuote())
    ensures YearEndQuotes(AddStockValue(q, s, x))
  {
    assert SlotOf(s) != VmfxxSlot && SlotOf(s) != OtherSlot;
    assert Get(AddStockValue(q, s, x), VmfxxSlot) == Get(q, VmfxxSlot);
    assert Get(AddStockValue(q, s, x), OtherSlot) == Get(q, OtherSlot);
    assert Get(AddStockValue(q, s, x), OutsideBondSlot) == Get(q, OutsideBondSlot);
    assert Get(AddStockValue(q, s, x), OutsideStockSlot) == Get(q, OutsideStockSlot);
  }

  /** An account's record, the zero record when the account is absent. */
  function HoldingOf(m: map<nat, ShareValues>, acct: nat): ShareValues {
    if acct in m then m[acct] else Zero()
  }

  /** The documented scenario: an account holding 20 VV shares, one `Buy` of 5 VV
      shares after the boundary and one older row. The replay succeeds and takes
      the 5 shares off. */
  lemma ReplayBuyScenario()
    ensures var h := AddStockValue(Zero(), VV, 20.0);
      var txs := [Transaction(7, Dec31(2023) - 10, VV, 2.0, -200.0, Buy),
                  Transaction(7, Dec31(2023) + 40, VV, 5.0, -500.0, Buy)];
      EoySnapshot(h, txs, 2024, 7) == Some(AddStockValue(Zero(), VV, 15.0))
  {
    var h := AddStockValue(Zero(), VV, 20.0);
    var txs := [Transaction(7, Dec31(2023) - 10, VV, 2.0, -200.0, Buy),
                Transaction(7, Dec31(2023) + 40, VV, 5.0, -500.0, Buy)];
    var b := Boundary(2024);
    assert b == Dec31(2023);
    assert !Passes(txs[0], b, 7) && Passes(txs[1], b, 7);
    assert txs[..1] == [txs[0]] && [txs[0]][..0] == [];
    assert Replay(h, txs, b, 7) == SubtractStockValue(h, VV, 5.0);
    SlotwiseEqual(SubtractStockValue(h, VV, 5.0), AddStockValue(Zero(), VV, 15.0));
  }

  /** With no row on or before the boundary, however many rows the account has,
      the replay reports that more history is needed. */
  lemma AllRecentGivesNoSnapshot(h: ShareValues, txs: seq<Transaction>, year: nat, acct: nat)
    requires year < TwoTo32
    requires forall i :: 0 <= i < |txs| ==> Passes(txs[i], Boundary(year), acct)
    ensures EoySnapshot(h, txs, year, acct) == None
  {
  }

  /** A row from another account counts as history even when it is dated after
      the boundary: one such row next to the account's own recent row is enough. */
  lemma OtherAccountRowCountsAsHistory(h: ShareValues, t: Transaction, u: Transaction, year: nat, acct: nat)
    requires year < TwoTo32 && DateOk(year)
    requires Passes(t, Boundary(year), acct)
    requires u.accountNumber != acct
    ensures EoySnapshot(h, [u, t], year, acct).Some?
  {
    assert !Passes([u, t][0], Boundary(year), acct) && Passes([u, t][1], Boundary(year), acct);
  }

  /** The holding the as-written value replay starts from: 10 BND shares at 100
      each, worth 1000. */
  function TenBndValues(): ShareValues {
    AddStockValue(Zero(), BND, 1000.0)
  }

  function TenBndShares(): ShareValues {
    AddStockValue(Zero(), BND, 10.0)
  }

  function BndAt100(): ShareValues {
    AddStockValue(NewQuote(), BND, 100.0)
  }

  /** A ledger with one old row and one recent dividend without a symbol: the replay
      succeeds and changes nothing. */
  function QuietLedger(acct: nat): seq<Transaction> {
    [Transaction(acct, Dec31(2023) - 5, Empty, 0.0, 0.0, Dividend),
     Transaction(acct, Dec31(2023) + 5, Empty, 0.0, 12.0, Dividend)]
  }

  lemma QuietLedgerSnapshot(h: ShareValues, acct: nat)
    ensures EoySnapshot(h, QuietLedger(acct), 2024, acct) == Some(h)
  {
    var txs := QuietLedger(acct);
    var b := Boundary(2024);
    assert !Passes(txs[0], b, acct) && Passes(txs[1], b, acct);
    assert txs[..1] == [txs[0]] && [txs[0]][..0] == [];
    assert Replay(h, txs[..1], b, acct) == h;
    assert ReplayRow(h, txs[1]) == h;
    assert Replay(h, txs, b, acct) == h;
  }

  /** The as-written replay starts from dollar values and then multiplies by
      per-share prices: 10 BND shares priced at 100 are reported as worth 100000,
      with no row changing the holding and the price unchanged at year end. */
  lemma EoyValueUnitsMismatch()
    ensures EoyValueOf(TenBndValues(), QuietLedger(1), 2024, 1, BndAt100()) == Some(100000.0)
    ensures TotalValue(TenBndValues()) == 1000.0
  {
    QuietLedgerSnapshot(TenBndValues(), 1);
    assert Mul(TenBndValues(), BndAt100()) == AddStockValue(Zero(), BND, 100000.0) by {
      SlotwiseEqual(Mul(TenBndValues(), BndAt100()), AddStockValue(Zero(), BND, 100000.0));
    }
  }

  /** Started from share counts, the replay reprices consistently: when each
      fund's and the cash's share count times its quote is its dollar value, and the
      quotes are year-end quotes, a ledger whose passing rows change no holding
      yields the current dollar total, the unsupported bucket included. */
  lemma EoyValueBySharesConsistent(shares: ShareValues, values: ShareValues, quotes: ShareValues,
                                   txs: seq<Transaction>, year: nat, acct: nat)
    requires year < TwoTo32
    requires YearEndQuotes(quotes)
    requires forall f :: InTotal(f) && f != OtherSlot ==> Get(shares, f) * Get(quotes, f) == Get(values, f)
    requires forall i :: 0 <= i < |txs| && Passes(txs[i], Boundary(year), acct) ==> txs[i].symbol == Empty
    requires EoySnapshot(ReplayStart(shares, values), txs, year, acct).Some?
    ensures EoyValueOf(ReplayStart(shares, values), txs, year, acct, quotes) == Some(TotalValue(values))
  {
    var start := ReplayStart(shares, values);
    var b := Boundary(year);
    NoSymbolRowsRemoveNothing(txs, b, acct);
    var s := EoySnapshot(start, txs, year, acct).value;
    assert forall f :: Get(s, f) == Get(start, f);
    SlotwiseEqual(s, start);
    PricedStartIsValue(shares, values, quotes);
  }

  /** Priced at year-end quotes, the replay's starting record is worth the dollar
      values wherever the share counts and quotes agree with them. */
  lemma PricedStartIsValue(shares: ShareValues, values: ShareValues, quotes: ShareValues)
    requires YearEndQuotes(quotes)
    requires forall f :: InTotal(f) && f != OtherSlot ==> Get(shares, f) * Get(quotes, f) == Get(values, f)
    ensures TotalValue(Mul(ReplayStart(shares, values), quotes)) == TotalValue(values)
  {
    var m := Mul(ReplayStart(shares, values), quotes);
    assert m.vxus == values.vxus by { assert Get(shares, VxusSlot) * Get(quotes, VxusSlot) == Get(values, VxusSlot); }
    assert m.bndx == values.bndx by { assert Get(shares, BndxSlot) * Get(quotes, BndxSlot) == Get(values, BndxSlot); }
    assert m.bnd == values.bnd by { assert Get(shares, BndSlot) * Get(quotes, BndSlot) == Get(values, BndSlot); }
    assert m.vwo == values.vwo by { assert Get(shares, VwoSlot) * Get(quotes, VwoSlot) == Get(values, VwoSlot); }
    assert m.vo == values.vo by { assert Get(shares, VoSlot) * Get(quotes, VoSlot) == Get(values, VoSlot); }
    assert m.vb == values.vb by { assert Get(shares, VbSlot) * Get(quotes, VbSlot) == Get(values, VbSlot); }
    assert m.vtc == values.vtc by { assert Get(shares, VtcSlot) * Get(quotes, VtcSlot) == Get(values, VtcSlot); }
    assert m.vv == values.vv by { assert Get(shares, VvSlot) * Get(quotes, VvSlot) == Get(values, VvSlot); }
    assert m.vtip == values.vtip by { assert Get(shares, VtipSlot) * Get(quotes, VtipSlot) == Get(values, VtipSlot); }
    assert m.vmfxx == values.vmfxx by { assert Get(shares, VmfxxSlot) * Get(quotes, VmfxxSlot) == Get(values, VmfxxSlot); }
    assert m.other == values.other;
  }

  lemma {:induction false} NoSymbolRowsRemoveNothing(txs: seq<Transaction>, boundary: int, acct: nat)
    requires forall i :: 0 <= i < |txs| && Passes(txs[i], boundary, acct) ==> txs[i].symbol == Empty
    ensures forall f :: RemovedFrom(txs, boundary, acct, f) == 0.0
  {
    if txs != [] {
      var init := txs[..|txs| - 1];
      assert forall i :: 0 <= i < |init| ==> init[i] == txs[i];
      NoSymbolRowsRemoveNothing(init, boundary, acct);
    }
  }

  /** The corrected computation on the example above reports the true 1000. */
  lemma EoyValueBySharesExample()
    ensures EoyValueOf(ReplayStart(TenBndShares(), TenBndValues()), QuietLedger(1), 2024, 1, BndAt100()) == Some(1000.0)
  {
    assert ReplayStart(TenBndShares(), TenBndValues()) == TenBndShares();
    QuietLedgerSnapshot(TenBndShares(), 1);
    var priced := Mul(TenBndShares(), BndAt100());
    assert EoyValueOf(TenBndShares(), QuietLedger(1), 2024, 1, BndAt100()) == Some(TotalValue(priced));
    assert priced == TenBndValues() by {
      SlotwiseEqual(priced, TenBndValues());
    }
  }

  /** An account holding 5000 dollars of an unsupported ticker: its share record
      only flags the holding with 1, its value record holds the 5000, and the
      corrected replay values it at 5000. */
  lemma EoyValueBySharesOtherExample()
    ensures EoyValueOf(ReplayStart(OtherFlagged(), OtherWorth5000()), QuietLedger(1), 2024, 1, NewQuote()) == Some(5000.0)
  {
    var start := ReplayStart(OtherFlagged(), OtherWorth5000());
    assert start == OtherWorth5000();
    QuietLedgerSnapshot(start, 1);
    var priced := Mul(start, NewQuote());
    assert EoyValueOf(start, QuietLedger(1), 2024, 1, NewQuote()) == Some(TotalValue(priced));
    QuoteIdentity(start);
    assert TotalValue(start) == 5000.0;
  }

  function OtherFlagged(): ShareValues {
    Zero().(other := 1.0)
  }

  function OtherWorth5000(): ShareValues {
    Zero().(other := 5000.0)
  }
}
