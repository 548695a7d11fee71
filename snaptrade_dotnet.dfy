/**
 * The .NET backend's SnapTrade service: parsing accounts and holdings from
 * `JsonElement`s and summing them into a portfolio.  The exceptions the
 * code can raise become `Err` values; the HTTP calls are outside the model,
 * and the holdings fetched per account are given as a function.
 */
module SnapTradeDotNet {
  import opened Wrappers
  import opened Json
  import opened SnapTrade

  /** The exceptions of the modelled code. */
  datatype Failure =
    | MissingProperty(name: string)  // `GetProperty` on an absent key
    | NullDecimal(name: string)      // `GetDecimal` on a JSON null
    | DivideByZero                   // decimal division by zero

  /** `TryGetProperty(name, out v) ? v.GetString() ?? d : d`. */
  function StringOr(f: Field<string>, default: string): (s: string)
    ensures f.Present? ==> s == f.value
    ensures !f.Present? ==> s == default
  {
    match f
    case Present(v) => v
    case _ => default
  }

  /** `TryGetProperty(name, out v) ? v.GetDecimal() : d`; a JSON null throws. */
  function DecimalOr(f: Field<real>, default: real, name: string): (r: Result<real, Failure>)
    ensures r.Err? <==> f.Null?
    ensures f.Present? ==> r == Ok(f.value)
    ensures f.Absent? ==> r == Ok(default)
  {
    match f
    case Absent => Ok(default)
    case Null => Err(NullDecimal(name))
    case Present(v) => Ok(v)
  }

  /** The gain/loss percentage of a holding: 0 unless the cost basis is positive. */
  function HoldingPercent(gainLoss: real, costBasis: real): (p: real)
    ensures costBasis > 0.0 ==> p * costBasis == gainLoss * 100.0
    ensures costBasis <= 0.0 ==> p == 0.0
  {
    if costBasis > 0.0 then
      PercentScales(gainLoss, costBasis);
      gainLoss / costBasis * 100.0
    else 0.0
  }

  /** `ParseHolding`. */
  function ParseHolding(e: RawHolding): (r: Result<Holding, Failure>)
    ensures r.Err? <==> e.quantity.Null? || e.averagePurchasePrice.Null? || e.currentPrice.Null? || e.totalValue.Null?
    ensures r.Ok? ==>
      var h := r.value;
      (e.quantity.Absent? ==> h.quantity == 0.0) &&
      (e.quantity.Present? ==> h.quantity == e.quantity.value) &&
      (e.averagePurchasePrice.Absent? ==> h.averagePurchasePrice == 0.0) &&
      (e.averagePurchasePrice.Present? ==> h.averagePurchasePrice == e.averagePurchasePrice.value) &&
      (e.currentPrice.Absent? ==> h.currentPrice == 0.0) &&
      (e.currentPrice.Present? ==> h.currentPrice == e.currentPrice.value) &&
      (e.totalValue.Absent? ==> h.totalValue == h.quantity * h.currentPrice) &&
      (e.totalValue.Present? ==> h.totalValue == e.totalValue.value) &&
      h.gainLoss + h.quantity * h.averagePurchasePrice == h.totalValue &&
      h.gainLossPercent == HoldingPercent(h.gainLoss, h.quantity * h.averagePurchasePrice) &&
      h.symbol == StringOr(e.symbol, "") && h.currency == StringOr(e.currency, DefaultCurrency)
  {
    var quantity :- DecimalOr(e.quantity, 0.0, "quantity");
    var avgPrice :- DecimalOr(e.averagePurchasePrice, 0.0, "averagePurchasePrice");
    var currentPrice :- DecimalOr(e.currentPrice, 0.0, "currentPrice");
    var totalValue :- DecimalOr(e.totalValue, quantity * currentPrice, "totalValue");
    var gainLoss := totalValue - quantity * avgPrice;
    Ok(Holding(StringOr(e.symbol, ""), quantity, avgPrice, currentPrice, totalValue, gainLoss,
               HoldingPercent(gainLoss, quantity * avgPrice), StringOr(e.currency, DefaultCurrency)))
  }

  /** `ParseAccount`: `id` is required, a given balance must not be null, the rest default. */
  function ParseAccount(e: RawAccount): (r: Result<Account, Failure>)
    ensures r.Err? <==> e.id.Absent? || e.balance.Null?
    ensures r.Ok? ==>
      var a := r.value;
      a.id == StringOr(e.id, "") && a.name == StringOr(e.name, "") &&
      a.accountNumber == StringOr(e.accountNumber, "") && a.accountType == StringOr(e.accountType, "") &&
      a.brokerageId == StringOr(e.brokerageId, "") &&
      (e.balance.Absent? ==> a.balance == None) && (e.balance.Present? ==> a.balance == Some(e.balance.value)) &&
      a.currency == StringOr(e.currency, DefaultCurrency) && a.holdings == []
  {
    if e.id.Absent? then Err(MissingProperty("id"))
    else if e.balance.Null? then Err(NullDecimal("balance"))
    else
      var balance := if e.balance.Present? then Some(e.balance.value) else None;
      Ok(Account(StringOr(e.id, ""), StringOr(e.name, ""), StringOr(e.accountNumber, ""),
                 StringOr(e.accountType, ""), StringOr(e.brokerageId, ""), balance,
                 StringOr(e.currency, DefaultCurrency), []))
  }

  /** `TotalGainLossPercent`: guarded only by a positive balance, so the division can still fail. */
  function PortfolioPercent(totalBalance: real, totalGainLoss: real): (r: Result<real, Failure>)
    ensures r.Err? <==> totalBalance > 0.0 && totalBalance == totalGainLoss
    ensures totalBalance <= 0.0 ==> r == Ok(0.0)
    ensures r.Ok? && totalBalance > 0.0 ==> r.value * (totalBalance - totalGainLoss) == totalGainLoss * 100.0
  {
    if totalBalance > 0.0 then
      if totalBalance - totalGainLoss == 0.0 then Err(DivideByZero)
      else
        PercentScales(totalGainLoss, totalBalance - totalGainLoss);
        Ok(totalGainLoss / (totalBalance - totalGainLoss) * 100.0)
    else Ok(0.0)
  }

  /** The portfolio the service returns for accounts whose holdings are loaded. */
  function Summary(userId: string, accounts: seq<Account>): (r: Result<Portfolio, Failure>)
    ensures r.Err? <==> TotalBalance(accounts) > 0.0 && TotalBalance(accounts) == TotalGainLoss(accounts)
    ensures r.Ok? ==>
      r.value.userId == userId && r.value.accounts == accounts &&
      r.value.totalBalance == TotalBalance(accounts) && r.value.totalGainLoss == TotalGainLoss(accounts) &&
      Ok(r.value.totalGainLossPercent) == PortfolioPercent(TotalBalance(accounts), TotalGainLoss(accounts)) &&
      r.value.currency == PortfolioCurrency(accounts)
  {
    var totalBalance := TotalBalance(accounts);
    var totalGainLoss := TotalGainLoss(accounts);
    var percent :- PortfolioPercent(totalBalance, totalGainLoss);
    Ok(Portfolio(userId, accounts, totalBalance, totalGainLoss, percent, PortfolioCurrency(accounts)))
  }

  /** `GetPortfolioAsync` after the accounts were fetched: load every account's holdings, then sum. */
  method GetPortfolio(userId: string, accounts: array<Account>, fetched: string -> seq<Holding>)
    returns (r: Result<Portfolio, Failure>)
    modifies accounts
    ensures accounts[..] == WithHoldings(old(accounts[..]), fetched)
    ensures r == Summary(userId, accounts[..])
  {
    LoadHoldings(accounts, fetched);
    r := Summary(userId, accounts[..]);
  }

  /** A portfolio whose gains make up its whole positive balance makes the service throw. */
  lemma AllGainThrows()
    ensures var h := Holding("X", 1.0, 0.0, 10.0, 10.0, 10.0, 0.0, DefaultCurrency);
      Summary("u", [Account("a", "", "", "", "", Some(10.0), DefaultCurrency, [h])]) == Err(DivideByZero)
  {
    var h := Holding("X", 1.0, 0.0, 10.0, 10.0, 10.0, 0.0, DefaultCurrency);
    var a := Account("a", "", "", "", "", Some(10.0), DefaultCurrency, [h]);
    SumsSingle(a);
    assert [h][..0] == [];
  }
}
