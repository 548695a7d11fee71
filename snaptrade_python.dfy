/**
 * The Python backend's SnapTrade service: parsing accounts and holdings from
 * decoded JSON dicts into pydantic models and summing them into a portfolio,
 * and how its guards differ from the .NET backend's.  A pydantic validation
 * failure (a `None` given to a `str` field) becomes an `Err` listing the
 * offending fields; the HTTP calls are outside the model.
 */
module SnapTradePython {
  import opened Wrappers
  import opened Json
  import opened SnapTrade
  import SnapTradeDotNet

  /** pydantic's `ValidationError`, with the fields that failed in declaration order. */
  datatype ValidationError = ValidationError(fields: seq<string>)

  /** `float(element.get(name, 0) or 0)`: missing, null and zero all give 0. */
  function FloatOrZero(f: Field<real>): (x: real)
    ensures f.Present? ==> x == f.value
    ensures !f.Present? ==> x == 0.0
  {
    match f
    case Present(v) => v
    case _ => 0.0
  }

  /** `element.get(name, default)` for a `str` field; an explicit null is kept and later rejected. */
  function StrGet(f: Field<string>, default: string): Option<string> {
    match f
    case Absent => Some(default)
    case Null => None
    case Present(v) => Some(v)
  }

  /** The names of the `str` fields whose value is null, in order. */
  function NullFields(fields: seq<(string, Field<string>)>): (names: seq<string>)
    ensures |names| <= |fields|
    ensures forall n | n in names :: exists i :: 0 <= i < |fields| && fields[i].0 == n && fields[i].1.Null?
    ensures names == [] <==> forall i | 0 <= i < |fields| :: !fields[i].1.Null?
  {
    if |fields| == 0 then []
    else
      var rest := NullFields(fields[1..]);
      assert forall i | 1 <= i < |fields| :: fields[1..][i - 1] == fields[i];
      if fields[0].1.Null? then [fields[0].0] + rest else rest
  }

  /** `gain_pct`: 0 exactly when the cost basis is 0, so a negative cost basis still yields a percentage. */
  function HoldingPercent(gainLoss: real, costBasis: real): (p: real)
    ensures costBasis != 0.0 ==> p * costBasis == gainLoss * 100.0
    ensures costBasis == 0.0 ==> p == 0.0
  {
    if costBasis != 0.0 then
      PercentScales(gainLoss, costBasis);
      gainLoss / costBasis * 100.0
    else 0.0
  }

  /** `_parse_holding`. */
  function ParseHolding(e: RawHolding): (r: Result<Holding, ValidationError>)
    ensures r.Err? <==> e.symbol.Null? || e.currency.Null?
    ensures r.Ok? ==>
      var h := r.value;
      h.quantity == FloatOrZero(e.quantity) && h.averagePurchasePrice == FloatOrZero(e.averagePurchasePrice) &&
      h.currentPrice == FloatOrZero(e.currentPrice) &&
      (e.totalValue.Present? && e.totalValue.value != 0.0 ==> h.totalValue == e.totalValue.value) &&
      (!(e.totalValue.Present? && e.totalValue.value != 0.0) ==> h.totalValue == h.quantity * h.currentPrice) &&
      h.gainLoss + h.quantity * h.averagePurchasePrice == h.totalValue &&
      h.gainLossPercent == HoldingPercent(h.gainLoss, h.quantity * h.averagePurchasePrice) &&
      Some(h.symbol) == StrGet(e.symbol, "") && Some(h.currency) == StrGet(e.currency, DefaultCurrency)
  {
    var qty := FloatOrZero(e.quantity);
    var avg := FloatOrZero(e.averagePurchasePrice);
    var curr := FloatOrZero(e.currentPrice);
    var total := if e.totalValue.Present? && e.totalValue.value != 0.0 then e.totalValue.value else qty * curr;
    var gainLoss := total - qty * avg;
    if e.symbol.Null? || e.currency.Null? then
      Err(ValidationError(NullFields([("symbol", e.symbol), ("currency", e.currency)])))
    else
      Ok(Holding(StrGet(e.symbol, "").GetOr(""), qty, avg, curr, total, gainLoss,
                 HoldingPercent(gainLoss, qty * avg), StrGet(e.currency, DefaultCurrency).GetOr(DefaultCurrency)))
  }

  /** `_parse_account`: every field defaults, but a null `str` field is rejected. */
  function ParseAccount(e: RawAccount): (r: Result<Account, ValidationError>)
    ensures r.Err? <==> e.id.Null? || e.name.Null? || e.accountNumber.Null? || e.accountType.Null? ||
                        e.brokerageId.Null? || e.currency.Null?
    ensures r.Ok? ==>
      var a := r.value;
      Some(a.id) == StrGet(e.id, "") && Some(a.name) == StrGet(e.name, "") &&
      Some(a.accountNumber) == StrGet(e.accountNumber, "") && Some(a.accountType) == StrGet(e.accountType, "") &&
      Some(a.brokerageId) == StrGet(e.brokerageId, "") &&
      (e.balance.Present? ==> a.balance == Some(e.balance.value)) && (!e.balance.Present? ==> a.balance == None) &&
      Some(a.currency) == StrGet(e.currency, DefaultCurrency) && a.holdings == []
  {
    if e.id.Null? || e.name.Null? || e.accountNumber.Null? || e.accountType.Null? ||
       e.brokerageId.Null? || e.currency.Null? then
      Err(ValidationError(NullFields([("id", e.id), ("name", e.name), ("account_number", e.accountNumber),
                                      ("type", e.accountType), ("brokerage_id", e.brokerageId),
                                      ("currency", e.currency)])))
    else
      var balance := if e.balance.Present? then Some(e.balance.value) else None;
      Ok(Account(StrGet(e.id, "").GetOr(""), StrGet(e.name, "").GetOr(""), StrGet(e.accountNumber, "").GetOr(""),
                 StrGet(e.accountType, "").GetOr(""), StrGet(e.brokerageId, "").GetOr(""), balance,
                 StrGet(e.currency, DefaultCurrency).GetOr(DefaultCurrency), []))
  }

  /** `total_gain_loss_percent`: guarded by the divisor itself, so it never divides by zero. */
  function PortfolioPercent(totalBalance: real, totalGainLoss: real): (p: real)
    ensures totalBalance != totalGainLoss ==> p * (totalBalance - totalGainLoss) == totalGainLoss * 100.0
    ensures p == 0.0 <==> totalBalance == totalGainLoss || totalGainLoss == 0.0
  {
    if totalBalance - totalGainLoss != 0.0 then
      PercentScales(totalGainLoss, totalBalance - totalGainLoss);
      totalGainLoss / (totalBalance - totalGainLoss) * 100.0
    else 0.0
  }

  /** The portfolio `get_portfolio` returns for accounts whose holdings are loaded. */
  function Summary(userId: string, accounts: seq<Account>): (p: Portfolio)
    ensures p.userId == userId && p.accounts == accounts
    ensures p.totalBalance == TotalBalance(accounts) && p.totalGainLoss == TotalGainLoss(accounts)
    ensures p.totalGainLossPercent == PortfolioPercent(p.totalBalance, p.totalGainLoss)
    ensures p.currency == PortfolioCurrency(accounts)
  {
    var totalBalance := TotalBalance(accounts);
    var totalGainLoss := TotalGainLoss(accounts);
    Portfolio(userId, accounts, totalBalance, totalGainLoss, PortfolioPercent(totalBalance, totalGainLoss),
              PortfolioCurrency(accounts))
  }

  /** `get_portfolio` after the accounts were fetched: load every account's holdings, then sum. */
  method GetPortfolio(userId: string, accounts: array<Account>, fetched: string -> seq<Holding>)
    returns (p: Portfolio)
    modifies accounts
    ensures accounts[..] == WithHoldings(old(accounts[..]), fetched)
    ensures p == Summary(userId, accounts[..])
  {
    LoadHoldings(accounts, fetched);
    p := Summary(userId, accounts[..]);
  }

  // ---------------------------------------------------------------------------
  // The two backends compared
  // ---------------------------------------------------------------------------

  lemma ProductCongruence(a: real, b: real, c: real, d: real)
    requires a == c && b == d
    ensures a * b == c * d
  {
  }

  /** Holding percentages agree for a non-negative cost basis; for a negative one only Python reports it. */
  lemma HoldingPercentsCompare(gainLoss: real, costBasis: real)
    ensures costBasis >= 0.0 ==> HoldingPercent(gainLoss, costBasis) == SnapTradeDotNet.HoldingPercent(gainLoss, costBasis)
    ensures costBasis < 0.0 && gainLoss != 0.0 ==>
      SnapTradeDotNet.HoldingPercent(gainLoss, costBasis) == 0.0 && HoldingPercent(gainLoss, costBasis) != 0.0
  {
  }

  /**
   * Portfolio percentages agree when the balance is positive and differs from the gain.  A
   * balance equal to the gain makes .NET throw where Python reports 0, and a non-positive
   * balance makes .NET report 0 where Python divides.
   */
  lemma PortfolioPercentsCompare(totalBalance: real, totalGainLoss: real)
    ensures totalBalance > 0.0 && totalBalance != totalGainLoss ==>
      SnapTradeDotNet.PortfolioPercent(totalBalance, totalGainLoss) == Ok(PortfolioPercent(totalBalance, totalGainLoss))
    ensures totalBalance > 0.0 && totalBalance == totalGainLoss ==>
      SnapTradeDotNet.PortfolioPercent(totalBalance, totalGainLoss).Err? && PortfolioPercent(totalBalance, totalGainLoss) == 0.0
    ensures totalBalance <= 0.0 && totalBalance != totalGainLoss && totalGainLoss != 0.0 ==>
      SnapTradeDotNet.PortfolioPercent(totalBalance, totalGainLoss) == Ok(0.0) && PortfolioPercent(totalBalance, totalGainLoss) != 0.0
  {
  }

  /**
   * On a holding whose numbers are all given, whose total value is non-zero and whose cost
   * basis is non-negative, and whose strings are not null, both backends build the same record.
   */
  lemma ParseHoldingsAgree(e: RawHolding)
    requires e.quantity.Present? && e.averagePurchasePrice.Present? && e.currentPrice.Present?
    requires e.totalValue.Present? && e.totalValue.value != 0.0
    requires e.quantity.value * e.averagePurchasePrice.value >= 0.0
    requires !e.symbol.Null? && !e.currency.Null?
    ensures ParseHolding(e).Ok? && SnapTradeDotNet.ParseHolding(e) == Ok(ParseHolding(e).value)
  {
    var h := ParseHolding(e).value;
    var g := SnapTradeDotNet.ParseHolding(e).value;
    assert h.quantity == g.quantity && h.averagePurchasePrice == g.averagePurchasePrice;
    ProductCongruence(h.quantity, h.averagePurchasePrice, g.quantity, g.averagePurchasePrice);
    HoldingPercentsCompare(h.gainLoss, h.quantity * h.averagePurchasePrice);
    assert SnapTradeDotNet.ParseHolding(e).Ok?;
    assert h.currentPrice == g.currentPrice;
    assert h.totalValue == g.totalValue;
    assert h.gainLoss == g.gainLoss;
    assert h.gainLossPercent == g.gainLossPercent;
    assert h.symbol == g.symbol;
    assert h.currency == g.currency;
  }

  /** A zero total value is kept by .NET but replaced by quantity times price in Python. */
  lemma ZeroTotalValueDiffers()
    ensures var e := RawHolding(Present("X"), Present(2.0), Present(1.0), Present(3.0), Present(0.0), Absent);
      SnapTradeDotNet.ParseHolding(e).value.totalValue == 0.0 && ParseHolding(e).value.totalValue == 6.0
  {
  }

  /** A null quantity makes .NET throw, while Python counts it as 0. */
  lemma NullQuantityDiffers()
    ensures var e := RawHolding(Present("X"), Null, Present(1.0), Present(3.0), Absent, Absent);
      SnapTradeDotNet.ParseHolding(e).Err? && ParseHolding(e).Ok? && ParseHolding(e).value.quantity == 0.0
  {
  }
}
