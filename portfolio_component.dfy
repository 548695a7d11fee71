/**
 * The portfolio page: per-account totals over the holdings the backend
 * returns, the gain/loss percentage, the map of expanded account panels,
 * and the state `loadPortfolio` sets in its callbacks.  JavaScript numbers
 * are idealised as `real`, with division by zero giving `NonFinite`.
 */
module PortfolioComponent {
  import opened Wrappers
  import opened JsNumbers
  import SnapTrade

  const LoadFailed: string := "Failed to load portfolio. Please check your SnapTrade connection."

  /** The frontend's `Account`; unlike the backends' record, its holdings may be missing. */
  datatype Account = Account(id: string, accountNumber: string, name: string, accountType: string,
                             brokerageId: string, balance: Option<real>, currency: string,
                             holdings: Option<seq<SnapTrade.Holding>>)

  datatype Portfolio = Portfolio(userId: string, accounts: seq<Account>, totalBalance: real,
                                 totalGainLoss: real, totalGainLossPercent: real, currency: string)

  // ---------------------------------------------------------------------------
  // Account totals
  // ---------------------------------------------------------------------------

  /** `getAccountTotalValue`; the early return for missing or empty holdings agrees with the fold. */
  function AccountTotalValue(a: Account): (v: real)
    ensures a.holdings.None? ==> v == 0.0
    ensures v == SnapTrade.SumTotalValue(a.holdings.GetOr([]))
  {
    if a.holdings.None? || |a.holdings.value| == 0 then 0.0 else SnapTrade.SumTotalValue(a.holdings.value)
  }

  /** `getAccountTotalGainLoss`, likewise. */
  function AccountTotalGainLoss(a: Account): (g: real)
    ensures a.holdings.None? ==> g == 0.0
    ensures g == SnapTrade.SumGainLoss(a.holdings.GetOr([]))
  {
    if a.holdings.None? || |a.holdings.value| == 0 then 0.0 else SnapTrade.SumGainLoss(a.holdings.value)
  }

  /**
   * `getAccountTotalGainLossPercent`: 0 for a zero total value, otherwise the gain over
   * `value - gain`; that divisor is 0 when the whole value is gain, and the result is infinite.
   */
  function AccountTotalGainLossPercent(a: Account): (p: JsNumber)
    ensures var v, g := AccountTotalValue(a), AccountTotalGainLoss(a);
      (v == 0.0 ==> p == Finite(0.0)) &&
      (p.NonFinite? <==> v != 0.0 && v == g) &&
      (p.Finite? && v != 0.0 ==> p.value * (v - g) == g * 100.0)
  {
    var totalValue := AccountTotalValue(a);
    var totalGainLoss := AccountTotalGainLoss(a);
    if totalValue == 0.0 then Finite(0.0)
    else if totalValue - totalGainLoss == 0.0 then NonFinite
    else
      SnapTrade.PercentScales(totalGainLoss, totalValue - totalGainLoss);
      Finite(totalGainLoss / (totalValue - totalGainLoss) * 100.0)
  }

  /** The cost basis of the holdings, quantity times average purchase price. */
  function SumCostBasis(holdings: seq<SnapTrade.Holding>): real {
    if |holdings| == 0 then 0.0
    else SumCostBasis(holdings[..|holdings| - 1])
         + holdings[|holdings| - 1].quantity * holdings[|holdings| - 1].averagePurchasePrice
  }

  /** Gain/loss as both backends compute it: total value less cost basis. */
  predicate GainIsValueLessCost(h: SnapTrade.Holding) {
    h.gainLoss + h.quantity * h.averagePurchasePrice == h.totalValue
  }

  /** Over holdings whose gain is value less cost, value less gain is the cost basis. */
  lemma {:induction false} ValueLessGainIsCost(holdings: seq<SnapTrade.Holding>)
    requires forall i | 0 <= i < |holdings| :: GainIsValueLessCost(holdings[i])
    ensures SnapTrade.SumTotalValue(holdings) - SnapTrade.SumGainLoss(holdings) == SumCostBasis(holdings)
  {
    if |holdings| > 0 {
      var n := |holdings| - 1;
      assert forall i | 0 <= i < n :: holdings[..n][i] == holdings[i];
      ValueLessGainIsCost(holdings[..n]);
      assert GainIsValueLessCost(holdings[n]);
    }
  }

  /**
   * For holdings as the backends build them, the account percentage is the gain over the
   * account's cost basis, and it is infinite exactly when that cost basis is 0 but the value is not.
   */
  lemma AccountPercentOverCostBasis(a: Account)
    requires a.holdings.Some?
    requires forall i | 0 <= i < |a.holdings.value| :: GainIsValueLessCost(a.holdings.value[i])
    ensures var p, cost := AccountTotalGainLossPercent(a), SumCostBasis(a.holdings.value);
      (p.NonFinite? <==> AccountTotalValue(a) != 0.0 && cost == 0.0) &&
      (p.Finite? && AccountTotalValue(a) != 0.0 ==> p.value * cost == AccountTotalGainLoss(a) * 100.0)
  {
    ValueLessGainIsCost(a.holdings.value);
  }

  // ---------------------------------------------------------------------------
  // Expanded panels
  // ---------------------------------------------------------------------------

  /** `!!expandedAccounts[i]`: a missing entry reads as collapsed. */
  predicate Expanded(m: map<int, bool>, i: int) {
    i in m && m[i]
  }

  /** The map after `toggleAccount(i)`. */
  function Toggled(m: map<int, bool>, i: int): map<int, bool> {
    m[i := !Expanded(m, i)]
  }

  /** Toggling flips panel `i` and no other, and records an entry for `i`. */
  lemma ToggleFlipsOnly(m: map<int, bool>, i: int, j: int)
    ensures Expanded(Toggled(m, i), j) == if j == i then !Expanded(m, i) else Expanded(m, j)
    ensures Toggled(m, i).Keys == m.Keys + {i}
  {
  }

  /**
   * Toggling twice restores every panel.  The map itself is restored only when it already
   * had an entry for `i`; otherwise it keeps a `false` entry.
   */
  lemma ToggleTwice(m: map<int, bool>, i: int)
    ensures forall j :: Expanded(Toggled(Toggled(m, i), i), j) == Expanded(m, j)
    ensures i in m ==> Toggled(Toggled(m, i), i) == m
    ensures i !in m ==> Toggled(Toggled(m, i), i) == m[i := false]
  {
    forall j
      ensures Expanded(Toggled(Toggled(m, i), i), j) == Expanded(m, j)
    {
      ToggleFlipsOnly(m, i, j);
      ToggleFlipsOnly(Toggled(m, i), i, j);
    }
  }

  // ---------------------------------------------------------------------------
  // The page
  // ---------------------------------------------------------------------------

  /** JavaScript truthiness of an optional string: present and non-empty. */
  predicate Truthy(s: Option<string>) {
    s.Some? && s.value != ""
  }

  /** `err.error?.message || err.message || LoadFailed`. */
  function ErrorText(bodyMessage: Option<string>, message: Option<string>): (t: string)
    ensures t != ""
    ensures Truthy(bodyMessage) ==> t == bodyMessage.value
    ensures !Truthy(bodyMessage) && Truthy(message) ==> t == message.value
    ensures !Truthy(bodyMessage) && !Truthy(message) ==> t == LoadFailed
  {
    if Truthy(bodyMessage) then bodyMessage.value else if Truthy(message) then message.value else LoadFailed
  }

  /** `PortfolioComponent`: the fields `loadPortfolio` and `toggleAccount` assign. */
  class PortfolioPage {
    var portfolio: Option<Portfolio>
    var loading: bool
    var error: Option<string>
    var expandedAccounts: map<int, bool>

    constructor ()
      ensures portfolio == None && !loading && error == None && expandedAccounts == map[]
    {
      portfolio, loading, error, expandedAccounts := None, false, None, map[];
    }

    /** Whether panel `i` is shown expanded. */
    function IsExpanded(i: int): bool
      reads this
    {
      Expanded(expandedAccounts, i)
    }

    /** The synchronous start of `loadPortfolio`. */
    method LoadPortfolio()
      modifies this
      ensures loading && error == None
      ensures portfolio == old(portfolio) && expandedAccounts == old(expandedAccounts)
    {
      loading := true;
      error := None;
    }

    /** The success callback: store the portfolio, stop loading, and expand the first account if any. */
    method OnPortfolio(p: Portfolio)
      modifies this
      ensures portfolio == Some(p) && !loading && error == old(error)
      ensures |p.accounts| > 0 ==> expandedAccounts == old(expandedAccounts)[0 := true] && IsExpanded(0)
      ensures |p.accounts| == 0 ==> expandedAccounts == old(expandedAccounts)
    {
      portfolio := Some(p);
      loading := false;
      if |p.accounts| > 0 {
        expandedAccounts := expandedAccounts[0 := true];
      }
    }

    /** The error callback, given the message of the response body and of the error itself. */
    method OnPortfolioError(bodyMessage: Option<string>, message: Option<string>)
      modifies this
      ensures error == Some(ErrorText(bodyMessage, message)) && !loading
      ensures portfolio == old(portfolio) && expandedAccounts == old(expandedAccounts)
    {
      error := Some(ErrorText(bodyMessage, message));
      loading := false;
    }

    /** `toggleAccount(index)`. */
    method ToggleAccount(index: int)
      modifies this
      ensures expandedAccounts == Toggled(old(expandedAccounts), index)
      ensures IsExpanded(index) == !old(IsExpanded(index))
      ensures forall j | j != index :: IsExpanded(j) == old(IsExpanded(j))
      ensures portfolio == old(portfolio) && loading == old(loading) && error == old(error)
    {
      expandedAccounts := expandedAccounts[index := !Expanded(expandedAccounts, index)];
    }
  }
}
