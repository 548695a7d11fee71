/**
 * The brokerage records both backends build from SnapTrade responses
 * (accounts with their holdings, and the portfolio summing them), the raw
 * JSON objects they are parsed from, and the sums and the holdings-loading
 * loop the two backends share.  Decimal and float values are idealised as
 * `real`.
 */
module SnapTrade {
  import opened Wrappers
  import opened Json

  const DefaultCurrency: string := "USD"

  datatype Holding = Holding(symbol: string, quantity: real, averagePurchasePrice: real, currentPrice: real,
                             totalValue: real, gainLoss: real, gainLossPercent: real, currency: string)

  datatype Account = Account(id: string, name: string, accountNumber: string, accountType: string,
                             brokerageId: string, balance: Option<real>, currency: string, holdings: seq<Holding>)

  datatype Portfolio = Portfolio(userId: string, accounts: seq<Account>, totalBalance: real,
                                 totalGainLoss: real, totalGainLossPercent: real, currency: string)

  /** A holding object of the SnapTrade response, before parsing. */
  datatype RawHolding = RawHolding(symbol: Field<string>, quantity: Field<real>, averagePurchasePrice: Field<real>,
                                   currentPrice: Field<real>, totalValue: Field<real>, currency: Field<string>)

  /** An account object of the SnapTrade response, before parsing. */
  datatype RawAccount = RawAccount(id: Field<string>, name: Field<string>, accountNumber: Field<string>,
                                   accountType: Field<string>, brokerageId: Field<string>,
                                   balance: Field<real>, currency: Field<string>)

  /** `part / whole * 100` is the percentage `part` is of `whole`. */
  lemma PercentScales(part: real, whole: real)
    requires whole != 0.0
    ensures part / whole * 100.0 * whole == part * 100.0
  {
    assert part / whole * whole == part;
  }

  // ---------------------------------------------------------------------------
  // Sums (LINQ `Sum` and Python `sum` fold from the left)
  // ---------------------------------------------------------------------------

  /** The sum of the holdings' gain/loss. */
  function SumGainLoss(holdings: seq<Holding>): real {
    if |holdings| == 0 then 0.0
    else SumGainLoss(holdings[..|holdings| - 1]) + holdings[|holdings| - 1].gainLoss
  }

  /** The sum of the holdings' total value. */
  function SumTotalValue(holdings: seq<Holding>): real {
    if |holdings| == 0 then 0.0
    else SumTotalValue(holdings[..|holdings| - 1]) + holdings[|holdings| - 1].totalValue
  }

  /** The sum of the account balances, a missing balance counting as 0. */
  function TotalBalance(accounts: seq<Account>): real {
    if |accounts| == 0 then 0.0
    else TotalBalance(accounts[..|accounts| - 1]) + accounts[|accounts| - 1].balance.GetOr(0.0)
  }

  /** The sum over the accounts of their holdings' gain/loss. */
  function TotalGainLoss(accounts: seq<Account>): real {
    if |accounts| == 0 then 0.0
    else TotalGainLoss(accounts[..|accounts| - 1]) + SumGainLoss(accounts[|accounts| - 1].holdings)
  }

  /** The first account's currency, or the default for no accounts. */
  function PortfolioCurrency(accounts: seq<Account>): (c: string)
    ensures |accounts| > 0 ==> c == accounts[0].currency
    ensures |accounts| == 0 ==> c == DefaultCurrency
  {
    if |accounts| == 0 then DefaultCurrency else accounts[0].currency
  }

  /** The portfolio sums split over a concatenation, so each is the sum of its parts. */
  lemma {:induction false} SumsAppend(a: seq<Account>, b: seq<Account>)
    ensures TotalBalance(a + b) == TotalBalance(a) + TotalBalance(b)
    ensures TotalGainLoss(a + b) == TotalGainLoss(a) + TotalGainLoss(b)
  {
    if |b| > 0 {
      var c := a + b;
      assert c[..|c| - 1] == a + b[..|b| - 1];
      assert c[|c| - 1] == b[|b| - 1];
      SumsAppend(a, b[..|b| - 1]);
    } else {
      assert a + b == a;
    }
  }

  /** The holding sums split over a concatenation. */
  lemma {:induction false} HoldingSumsAppend(a: seq<Holding>, b: seq<Holding>)
    ensures SumGainLoss(a + b) == SumGainLoss(a) + SumGainLoss(b)
    ensures SumTotalValue(a + b) == SumTotalValue(a) + SumTotalValue(b)
  {
    if |b| > 0 {
      var c := a + b;
      assert c[..|c| - 1] == a + b[..|b| - 1];
      assert c[|c| - 1] == b[|b| - 1];
      HoldingSumsAppend(a, b[..|b| - 1]);
    } else {
      assert a + b == a;
    }
  }

  /** A single account contributes its balance (0 when missing) and its holdings' gain/loss. */
  lemma SumsSingle(a: Account)
    ensures TotalBalance([a]) == a.balance.GetOr(0.0)
    ensures TotalGainLoss([a]) == SumGainLoss(a.holdings)
  {
    assert [a][..0] == [];
  }

  // ---------------------------------------------------------------------------
  // Loading the holdings
  // ---------------------------------------------------------------------------

  /** The accounts after each was given the holdings fetched for its id. */
  function WithHoldings(accounts: seq<Account>, fetched: string -> seq<Holding>): (r: seq<Account>)
    ensures |r| == |accounts|
  {
    seq(|accounts|, i requires 0 <= i < |accounts| => accounts[i].(holdings := fetched(accounts[i].id)))
  }

  /** Loading holdings changes nothing but the holdings, so the balance sum and the currency are kept. */
  lemma {:induction false} WithHoldingsKeeps(accounts: seq<Account>, fetched: string -> seq<Holding>)
    ensures TotalBalance(WithHoldings(accounts, fetched)) == TotalBalance(accounts)
    ensures PortfolioCurrency(WithHoldings(accounts, fetched)) == PortfolioCurrency(accounts)
    ensures forall i | 0 <= i < |accounts| ::
      WithHoldings(accounts, fetched)[i].(holdings := accounts[i].holdings) == accounts[i]
  {
    var r := WithHoldings(accounts, fetched);
    if |accounts| > 0 {
      var n := |accounts| - 1;
      WithHoldingsKeeps(accounts[..n], fetched);
      assert r[..n] == WithHoldings(accounts[..n], fetched);
      assert r[n].balance == accounts[n].balance;
    }
  }

  /**
   * The `foreach` that assigns each account's holdings in place, with the
   * per-account fetch given as `fetched`.
   */
  method LoadHoldings(accounts: array<Account>, fetched: string -> seq<Holding>)
    modifies accounts
    ensures accounts[..] == WithHoldings(old(accounts[..]), fetched)
  {
    ghost var original := accounts[..];
    var i := 0;
    while i < accounts.Length
      invariant 0 <= i <= accounts.Length
      invariant accounts[..i] == WithHoldings(original, fetched)[..i]
      invariant accounts[i..] == original[i..]
    {
      assert accounts[i] == original[i];
      accounts[i] := accounts[i].(holdings := fetched(accounts[i].id));
      assert accounts[..i + 1] == accounts[..i] + [accounts[i]];
      i := i + 1;
    }
    assert accounts[..] == accounts[..accounts.Length];
  }
}
