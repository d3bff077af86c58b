/** The application state behind two of its buttons: creating and deleting a
    named profile across the six per-profile maps, and loading the minimum
    distribution table, which decides what the required-distribution line says.
    Everything the interface draws is left out. */
module App {
  import opened Wrappers
  import opened Holdings
  import opened Ledger
  import opened Calc

  /** The defaults a new profile starts from. */
  const DefaultBirthYear: nat := 1980
  const DefaultRetirementYear: int := 2050
  const DefaultBrokerageStock: nat := 65
  const DefaultAccountNumber: nat := 0

  /** The age at which distributions start when the table is empty. */
  const DefaultDistributionAge: nat := 70

  /** What the required-distribution line shows. */
  datatype DistributionMessage =
    | Prompt
    | NoDistributionNeeded
    | MoreHistoryNeeded
    | Required(minimum: real, soFar: real, toGo: real)

  /** A map with an entry for `k` added when it has none; an existing entry, for
      `k` or any other key, is kept as it is. */
  function WithDefault<V>(m: map<string, V>, k: string, v: V): (r: map<string, V>)
    ensures r.Keys == m.Keys + {k}
    ensures r[k] == if k in m then m[k] else v
    ensures forall j :: j in m ==> r[j] == m[j]
  {
    if k in m then m else m[k := v]
  }

  /** Creating a profile twice is creating it once. */
  lemma WithDefaultIdempotent<V>(m: map<string, V>, k: string, v: V)
    ensures WithDefault(WithDefault(m, k, v), k, v) == WithDefault(m, k, v)
  {
  }

  /** Deleting a profile right after creating it leaves the map as deleting it
      alone does; for a name that was not there, as it was before. */
  lemma DeleteUndoesCreate<V>(m: map<string, V>, k: string, v: V)
    ensures WithDefault(m, k, v) - {k} == m - {k}
    ensures k !in m ==> WithDefault(m, k, v) - {k} == m
  {
    assert WithDefault(m, k, v) - {k} == m - {k};
  }

  /** Creating a profile right after deleting it gives it the default entry,
      whatever it held before; no other name changes. */
  lemma CreateAfterDeleteResets<V>(m: map<string, V>, k: string, v: V)
    ensures WithDefault(m - {k}, k, v) == m[k := v]
  {
  }

  /** Whether distributions are due at an age: when the table lists an age no
      greater than it (so the table's smallest age is reached), or, with an empty
      table, from the default age on. */
  predicate DistributionDue(table: map<nat, real>, age: int) {
    if table.Keys == {} then age >= DefaultDistributionAge as int
    else exists k :: k in table && k <= age
  }

  /** The divisor the table gives for an age, 0 when it lists none. */
  function Divisor(table: map<nat, real>, age: nat): real {
    if age in table then table[age] else 0.0
  }

  /** The new required-distribution line. Below the due age there is nothing to
      take; without an end-of-year value more history is needed, never a zero
      amount; with a zero divisor the line is left as it was; otherwise it gives
      the minimum, what was taken so far, and what is still to go, never negative. */
  function RmdMessage(current: DistributionMessage, due: bool, eoyValue: Option<real>, divisor: real, soFar: real): (r: DistributionMessage)
    ensures !due ==> r == NoDistributionNeeded
    ensures due && eoyValue.None? ==> r == MoreHistoryNeeded
    ensures due && eoyValue.Some? && divisor == 0.0 ==> r == current
    ensures due && eoyValue.Some? && divisor != 0.0 ==>
      && r.Required?
      && r.minimum * divisor == eoyValue.value
      && r.soFar == soFar
      && r.toGo >= 0.0
      && r.toGo >= r.minimum - r.soFar
      && (r.toGo == 0.0 || r.toGo == r.minimum - r.soFar)
  {
    if !due then NoDistributionNeeded
    else if eoyValue.None? then MoreHistoryNeeded
    else if divisor == 0.0 then current
    else
      var minimum := eoyValue.value / divisor;
      assert minimum * divisor == eoyValue.value;
      Required(minimum, soFar, Max(0.0, minimum - soFar))
  }

  /** Once due, the app's minimum is the minimum-distribution lookup for the age;
      for an age the table does not list, the line is left as it was. */
  lemma RmdMinimumIsLookup(current: DistributionMessage, table: map<nat, real>, age: nat, value: real, soFar: real)
    requires age in table ==> table[age] != 0.0
    requires DistributionDue(table, age)
    ensures var r := RmdMessage(current, true, Some(value), Divisor(table, age), soFar);
      && (age in table ==> r.Required? && r.minimum == MinimumDistribution(age, value, table))
      && (age !in table ==> r == current)
  {
    var r := RmdMessage(current, true, Some(value), Divisor(table, age), soFar);
    if age in table {
      var period := table[age];
      assert r.minimum == value / period;
      assert MinimumDistribution(age, value, table) == value / period;
    }
  }

  /** The application state the two handlers read and change. */
  class VaporeApp {
    var profileName: string
    var birthYear: map<string, nat>
    var retirementYear: map<string, int>
    var brokerageStock: map<string, nat>
    var brokerageAccountNum: map<string, nat>
    var rothAccountNum: map<string, nat>
    var tradAccountNum: map<string, nat>
    var distributionTable: map<nat, real>
    var distributionNeeded: DistributionMessage
    var distributionYear: nat
    var vanguardHoldings: VanguardHoldings

    /** A fresh app over a holdings store, with no profiles and the prompt shown. */
    constructor (holdings: VanguardHoldings, year: nat)
      ensures profileName == "" && distributionYear == year && vanguardHoldings == holdings
      ensures birthYear == map[] && retirementYear == map[] && brokerageStock == map[]
      ensures brokerageAccountNum == map[] && rothAccountNum == map[] && tradAccountNum == map[]
      ensures distributionTable == map[] && distributionNeeded == Prompt
    {
      profileName, distributionYear, vanguardHoldings := "", year, holdings;
      birthYear, retirementYear, brokerageStock := map[], map[], map[];
      brokerageAccountNum, rothAccountNum, tradAccountNum := map[], map[], map[];
      distributionTable, distributionNeeded := map[], Prompt;
    }

    /** Whether a name has an entry in every profile map. */
    predicate HasProfile(name: string)
      reads this
    {
      && name in birthYear && name in retirementYear && name in brokerageStock
      && name in brokerageAccountNum && name in rothAccountNum && name in tradAccountNum
    }

    /** Whether a name is absent from every profile map. */
    predicate NoProfile(name: string)
      reads this
    {
      && name !in birthYear && name !in retirementYear && name !in brokerageStock
      && name !in brokerageAccountNum && name !in rothAccountNum && name !in tradAccountNum
    }

    /** The Create button: every profile map gets a default entry for the current
      name where it has none. */
    method CreateProfile()
      modifies this`birthYear, this`retirementYear, this`brokerageStock
      modifies this`brokerageAccountNum, this`rothAccountNum, this`tradAccountNum
      ensures birthYear == WithDefault(old(birthYear), profileName, DefaultBirthYear)
      ensures retirementYear == WithDefault(old(retirementYear), profileName, DefaultRetirementYear)
      ensures brokerageStock == WithDefault(old(brokerageStock), profileName, DefaultBrokerageStock)
      ensures brokerageAccountNum == WithDefault(old(brokerageAccountNum), profileName, DefaultAccountNumber)
      ensures rothAccountNum == WithDefault(old(rothAccountNum), profileName, DefaultAccountNumber)
      ensures tradAccountNum == WithDefault(old(tradAccountNum), profileName, DefaultAccountNumber)
      ensures HasProfile(profileName)
    {
      birthYear := WithDefault(birthYear, profileName, DefaultBirthYear);
      retirementYear := WithDefault(retirementYear, profileName, DefaultRetirementYear);
      brokerageStock := WithDefault(brokerageStock, profileName, DefaultBrokerageStock);
      brokerageAccountNum := WithDefault(brokerageAccountNum, profileName, DefaultAccountNumber);
      rothAccountNum := WithDefault(rothAccountNum, profileName, DefaultAccountNumber);
      tradAccountNum := WithDefault(tradAccountNum, profileName, DefaultAccountNumber);
    }

    /** The Delete button: the current name leaves every profile map; other names
      keep their entries. */
    method DeleteProfile()
      modifies this`birthYear, this`retirementYear, this`brokerageStock
      modifies this`brokerageAccountNum, this`rothAccountNum, this`tradAccountNum
      ensures birthYear == old(birthYear) - {profileName}
      ensures retirementYear == old(retirementYear) - {profileName}
      ensures brokerageStock == old(brokerageStock) - {profileName}
      ensures brokerageAccountNum == old(brokerageAccountNum) - {profileName}
      ensures rothAccountNum == old(rothAccountNum) - {profileName}
      ensures tradAccountNum == old(tradAccountNum) - {profileName}
      ensures NoProfile(profileName)
    {
      birthYear := birthYear - {profileName};
      retirementYear := retirementYear - {profileName};
      brokerageStock := brokerageStock - {profileName};
      brokerageAccountNum := brokerageAccountNum - {profileName};
      rothAccountNum := rothAccountNum - {profileName};
      tradAccountNum := tradAccountNum - {profileName};
    }

    /** Whether the current profile has a birth year and a traditional account. */
    predicate ProfileReady()
      reads this
    {
      profileName in birthYear && profileName in tradAccountNum
    }

    /** The profile's age in the distribution year. */
    function Age(): int
      reads this
      requires ProfileReady()
    {
      distributionYear - birthYear[profileName]
    }

    /** The smallest age the table lists, or the default age for an empty table. */
    method MinKeyOr(table: map<nat, real>) returns (m: nat)
      ensures table.Keys == {} ==> m == DefaultDistributionAge
      ensures table.Keys != {} ==> m in table && forall k :: k in table ==> m <= k
    {
      if table.Keys == {} {
        return DefaultDistributionAge;
      }
      var keys := table.Keys;
      m :| m in keys;
      keys := keys - {m};
      while keys != {}
        invariant keys <= table.Keys && m in table
        invariant forall k :: k in table && k !in keys ==> m <= k
        decreases |keys|
      {
        var k :| k in keys;
        if k < m {
          m := k;
        }
        keys := keys - {k};
      }
    }

    /** The "Load distribution table" button, with the table read and the end of
      year quotes fetched beforehand. For a profile with a birth year and a
      traditional account, once distributions are due at its age the account's
      end-of-year value is computed (which records the year's distributions as a
      side effect) and the required-distribution line is set as `RmdMessage`
      says; a profile without them leaves the line and the store as they were. */
    method LoadDistributionTable(table: map<nat, real>, eoyQuotes: ShareValues)
      requires ProfileReady() ==> birthYear[profileName] <= distributionYear && YearArgOk(distributionYear)
      requires YearEndQuotes(eoyQuotes)
      modifies this`distributionTable, this`distributionNeeded, vanguardHoldings`distributions
      ensures distributionTable == table
      ensures !ProfileReady() ==>
        distributionNeeded == old(distributionNeeded) && vanguardHoldings.distributions == old(vanguardHoldings.distributions)
      ensures ProfileReady() ==>
        var acct := tradAccountNum[profileName];
        var due := DistributionDue(table, Age());
        var h := vanguardHoldings;
        && h.distributions == (if due && DateOk(distributionYear)
                               then DistributionsAfter(old(h.distributions), h.transactions, Boundary(distributionYear), acct)
                               else old(h.distributions))
        && distributionNeeded == RmdMessage(old(distributionNeeded), due,
             EoyValueOf(ReplayStart(HoldingOf(h.accountsShares, acct), HoldingOf(h.accountsValues, acct)),
                        h.transactions, distributionYear, acct, eoyQuotes),
             Divisor(table, Age()), DistributionOf(h.distributions, acct))
    {
      distributionTable := table;
      if profileName in birthYear && profileName in tradAccountNum {
        var acct := tradAccountNum[profileName];
        var age: nat := distributionYear - birthYear[profileName];
        var minKey := MinKeyOr(table);
        assert age >= minKey <==> DistributionDue(table, age);
        if age >= minKey {
          var eoyValue := vanguardHoldings.EoyValueByShares(distributionYear, acct, eoyQuotes);
          if eoyValue.Some? {
            var divisor := Divisor(table, age);
            if divisor != 0.0 {
              var minimum := eoyValue.value / divisor;
              var soFar := vanguardHoldings.Distributions(acct);
              var left := Max(0.0, minimum - soFar);
              distributionNeeded := Required(minimum, soFar, left);
            }
          } else {
            distributionNeeded := MoreHistoryNeeded;
          }
        } else {
          distributionNeeded := NoDistributionNeeded;
        }
      }
    }
  }
}
