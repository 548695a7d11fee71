/**
 * The loan calculator of the debt page: the fixed monthly payment of an
 * amortising loan, its month-by-month schedule, the payoff time for a custom
 * payment, and the totals over all saved loans.  JavaScript doubles are
 * idealised as `real`; `Math.pow` with a whole exponent is `Pow`.
 */
module DebtCalculator {
  import opened Wrappers
  import opened JsNumbers

  // ---------------------------------------------------------------------------
  // Arithmetic helpers
  // ---------------------------------------------------------------------------

  /** `Math.pow(x, n)` for a natural exponent. */
  function Pow(x: real, n: nat): real {
    if n == 0 then 1.0 else x * Pow(x, n - 1)
  }

  lemma {:induction false} PowAtLeastOne(x: real, n: nat)
    requires x >= 1.0
    ensures Pow(x, n) >= 1.0
  {
    if n > 0 {
      PowAtLeastOne(x, n - 1);
      assert x * Pow(x, n - 1) >= Pow(x, n - 1);
    }
  }

  lemma {:induction false} PowMonotone(x: real, k: nat, n: nat)
    requires x >= 1.0 && k <= n
    ensures Pow(x, k) <= Pow(x, n)
  {
    if k < n {
      PowMonotone(x, k, n - 1);
      PowAtLeastOne(x, n - 1);
      assert x * Pow(x, n - 1) >= Pow(x, n - 1);
    }
  }

  lemma PowAboveOne(x: real, n: nat)
    requires x > 1.0 && n >= 1
    ensures Pow(x, n) > 1.0
  {
    PowAtLeastOne(x, n - 1);
    assert Pow(x, n) == x * Pow(x, n - 1);
    assert x * Pow(x, n - 1) > Pow(x, n - 1);
  }

  lemma PowUnfold(x: real, n: nat)
    requires n >= 1
    ensures Pow(x, n) == x * Pow(x, n - 1)
  {
  }

  /** Bernoulli-style bound: x^n - 1 <= n (x - 1) x^(n-1) for x >= 1. */
  lemma {:induction false} PowGrowthBound(x: real, n: nat)
    requires x >= 1.0 && n >= 1
    ensures Pow(x, n) - 1.0 <= (n as real) * (x - 1.0) * Pow(x, n - 1)
  {
    if n > 1 {
      PowGrowthBound(x, n - 1);
      PowAtLeastOne(x, n - 1);
      GrowthStep(x, Pow(x, n - 2), (n - 1) as real);
    }
  }

  /** The inductive step of PowGrowthBound, on plain reals. */
  lemma GrowthStep(x: real, p: real, m: real)
    requires x >= 1.0 && x * p >= 1.0 && m >= 0.0
    requires x * p - 1.0 <= m * (x - 1.0) * p
    ensures x * (x * p) - 1.0 <= (m + 1.0) * (x - 1.0) * (x * p)
  {
    var q := x * p;
    var c := x - 1.0;
    MulMonotone(x, q - 1.0, m * c * p);
    assert x * (m * c * p) == m * c * q;
    MulMonotone(c, 1.0, q);
    assert x * q - 1.0 == x * (q - 1.0) + c;
  }

  /** Multiplying by a non-negative factor keeps an inequality. */
  /** Equal factors give equal products (stated once so that callers need no nonlinear reasoning for it). */
  lemma MulCongruence(a: real, b: real, c: real)
    requires a == b
    ensures a * c == b * c
  {
  }

  lemma MulMonotone(a: real, b: real, c: real)
    requires a >= 0.0 && b <= c
    ensures a * b <= a * c
  {
  }

  /** `Math.max(0, x)`. */
  function Max0(x: real): (r: real)
    ensures r >= 0.0 && r >= x
    ensures r == x || r == 0.0
  {
    if x > 0.0 then x else 0.0
  }

  /** `Math.ceil` on a real. */
  function Ceil(x: real): (n: int)
    ensures x <= n as real < x + 1.0
  {
    -((-x).Floor)
  }

  // ---------------------------------------------------------------------------
  // Monthly payment
  // ---------------------------------------------------------------------------

  /** The monthly rate for an annual percentage: percent / 100 / 12. */
  function MonthlyRate(annualRatePercent: real): real {
    annualRatePercent / 100.0 / 12.0
  }

  /** The fixed payment: straight division at a zero rate, the annuity formula otherwise. */
  function MonthlyPaymentFor(principal: real, monthlyRate: real, months: nat): real
    requires months >= 1 && monthlyRate >= 0.0
  {
    if monthlyRate == 0.0 then principal / months as real
    else
      PowAboveOne(1.0 + monthlyRate, months);
      AnnuityPayment(principal, monthlyRate, Pow(1.0 + monthlyRate, months))
  }

  /** The annuity formula P (r g) / (g - 1), where g = (1 + r)^n is the growth over the term. */
  function AnnuityPayment(principal: real, monthlyRate: real, growth: real): real
    requires growth > 1.0
  {
    principal * (monthlyRate * growth) / (growth - 1.0)
  }

  /**
   * Over the whole term the fixed payment repays at least the principal, and
   * exactly the principal only at a zero rate: the total interest of a loan is
   * never negative and is zero iff the rate is zero.
   */
  lemma PaymentCoversPrincipal(principal: real, monthlyRate: real, payment: real, months: nat)
    requires principal > 0.0 && monthlyRate >= 0.0 && months >= 1
    requires payment == MonthlyPaymentFor(principal, monthlyRate, months)
    ensures payment * months as real >= principal
    ensures payment * months as real == principal <==> monthlyRate == 0.0
  {
    if monthlyRate > 0.0 {
      var q := AnnuityFactor(principal, monthlyRate, months);
      AnnuityCovers(principal, q, monthlyRate, payment, months);
    } else {
      DivThenMul(principal, months as real);
    }
  }

  /**
   * The annuity branch of MonthlyPaymentFor in terms of q = P / (x^n - 1):
   * q (x^n - 1) is the principal and the payment is q r x^n.
   */
  lemma AnnuityFactor(principal: real, monthlyRate: real, months: nat) returns (q: real)
    requires principal >= 0.0 && monthlyRate > 0.0 && months >= 1
    ensures q >= 0.0
    ensures q * (Pow(1.0 + monthlyRate, months) - 1.0) == principal
    ensures MonthlyPaymentFor(principal, monthlyRate, months) == q * (monthlyRate * Pow(1.0 + monthlyRate, months))
  {
    var a := Pow(1.0 + monthlyRate, months);
    PowAboveOne(1.0 + monthlyRate, months);
    assert MonthlyPaymentFor(principal, monthlyRate, months) == AnnuityPayment(principal, monthlyRate, a);
    q := principal / (a - 1.0);
    AnnuityPaymentSplit(principal, monthlyRate, a);
    DivThenMul(principal, a - 1.0);
    DivNonNegative(principal, a - 1.0);
  }

  lemma AnnuityPaymentSplit(principal: real, monthlyRate: real, growth: real)
    requires growth > 1.0
    ensures AnnuityPayment(principal, monthlyRate, growth) == (principal / (growth - 1.0)) * (monthlyRate * growth)
  {
    DivMulSwap(principal, monthlyRate * growth, growth - 1.0);
  }

  lemma DivMulSwap(p: real, c: real, d: real)
    requires d != 0.0
    ensures p * c / d == (p / d) * c
  {
    var q := p / d;
    assert p == q * d;
    assert p * c == (q * c) * d;
  }

  lemma DivNonNegative(a: real, n: real)
    requires a >= 0.0 && n > 0.0
    ensures a / n >= 0.0
  {
  }

  lemma DivThenMul(a: real, n: real)
    requires n != 0.0
    ensures a / n * n == a
  {
  }

  /** With q (x^n - 1) the principal, n payments of m = q r x^n exceed it. */
  lemma AnnuityCovers(principal: real, q: real, r: real, m: real, n: nat)
    requires principal > 0.0 && r > 0.0 && n >= 1 && q >= 0.0
    requires q * (Pow(1.0 + r, n) - 1.0) == principal && m == q * (r * Pow(1.0 + r, n))
    ensures m * n as real >= principal && m * n as real != principal
  {
    PowUnfold(1.0 + r, n);
    PowGrowthBound(1.0 + r, n);
    PowAtLeastOne(1.0 + r, n - 1);
    AnnuityExceedsStraight(principal, m, q, r, Pow(1.0 + r, n), Pow(1.0 + r, n - 1), n as real);
  }

  /** The arithmetic of AnnuityCovers on plain reals: a = x b, x = 1 + r, b >= 1, a - 1 <= n (x - 1) b. */

  lemma AnnuityExceedsStraight(principal: real, m: real, q: real, r: real, a: real, b: real, n: real)
    requires principal > 0.0 && r > 0.0 && b >= 1.0 && n >= 1.0 && q >= 0.0
    requires m == q * (r * a) && q * (a - 1.0) == principal
    requires a == (1.0 + r) * b && a - 1.0 <= n * ((1.0 + r) - 1.0) * b
    ensures m * n >= principal && m * n != principal
  {
    PositiveFactor(q, a - 1.0, principal);
    assert b < a;
    MulMonotone(n * r, b, a);
    StrictScale(q, a - 1.0, n * r * a);
    assert m * n == q * (n * r * a);
  }

  lemma PositiveFactor(q: real, d: real, p: real)
    requires q >= 0.0 && q * d == p && p > 0.0
    ensures q > 0.0
  {
    if q == 0.0 {
      assert false;
    }
  }

  lemma StrictScale(q: real, u: real, v: real)
    requires q > 0.0 && u < v
    ensures q * u < q * v
  {
  }

  // ---------------------------------------------------------------------------
  // Payment schedule
  // ---------------------------------------------------------------------------

  /** One row of the amortisation table. */
  datatype PaymentScheduleEntry = PaymentScheduleEntry(
    month: int,
    payment: real,
    principal: real,
    interest: real,
    remainingBalance: real)

  /** One month of the schedule loop: pay `payment`, of which `balance * rate` is interest. */
  function Step(balance: real, rate: real, payment: real): real {
    Max0(balance - (payment - balance * rate))
  }

  /** The balance the loop holds after `k` months. */
  function BalanceAfter(principal: real, rate: real, payment: real, k: nat): real {
    if k == 0 then principal else Step(BalanceAfter(principal, rate, payment, k - 1), rate, payment)
  }

  /** The entry the loop pushes for month `k + 1`. */
  function EntryFor(principal: real, rate: real, payment: real, k: nat): PaymentScheduleEntry {
    var balance := BalanceAfter(principal, rate, payment, k);
    var interest := balance * rate;
    PaymentScheduleEntry(k + 1, payment, payment - interest, interest, Step(balance, rate, payment))
  }

  /** The schedule after `count` months: what the loop has pushed by then. */
  function Schedule(principal: real, rate: real, payment: real, count: nat): seq<PaymentScheduleEntry> {
    if count == 0 then []
    else Schedule(principal, rate, payment, count - 1) + [EntryFor(principal, rate, payment, count - 1)]
  }

  lemma {:induction false} ScheduleAt(principal: real, rate: real, payment: real, count: nat, k: nat)
    requires k < count
    ensures |Schedule(principal, rate, payment, count)| == count
    ensures Schedule(principal, rate, payment, count)[k] == EntryFor(principal, rate, payment, k)
  {
    ScheduleLength(principal, rate, payment, count - 1);
    if k < count - 1 {
      ScheduleAt(principal, rate, payment, count - 1, k);
    }
  }

  lemma {:induction false} ScheduleLength(principal: real, rate: real, payment: real, count: nat)
    ensures |Schedule(principal, rate, payment, count)| == count
  {
    if count > 0 {
      ScheduleLength(principal, rate, payment, count - 1);
    }
  }

  /** The balance before month `k + 1`: the principal, or the previous row's remaining balance. */
  function PreviousBalance(principal: real, s: seq<PaymentScheduleEntry>, k: nat): real
    requires k < |s|
  {
    if k == 0 then principal else s[k - 1].remainingBalance
  }

  /** Row `k` of a schedule is the entry for month `k + 1`, pushed when the balance was the previous row's. */
  lemma RowAt(principal: real, rate: real, payment: real, count: nat, k: nat)
    requires k < count
    ensures var s := Schedule(principal, rate, payment, count);
      && |s| == count
      && s[k] == EntryFor(principal, rate, payment, k)
      && PreviousBalance(principal, s, k) == BalanceAfter(principal, rate, payment, k)
  {
    ScheduleAt(principal, rate, payment, count, k);
    if k > 0 {
      ScheduleAt(principal, rate, payment, count, k - 1);
      EntryBalance(principal, rate, payment, k - 1);
    }
  }

  /** The entry for month `k + 1` leaves the balance the loop holds after `k + 1` months. */
  lemma EntryBalance(principal: real, rate: real, payment: real, k: nat)
    ensures EntryFor(principal, rate, payment, k).remainingBalance == BalanceAfter(principal, rate, payment, k + 1)
  {
  }

  /** From the first month on, the loop's balance is never negative (the clamp sees to that). */
  lemma BalanceNonNegative(principal: real, rate: real, payment: real, k: nat)
    requires principal >= 0.0 || k > 0
    ensures BalanceAfter(principal, rate, payment, k) >= 0.0
  {
  }

  /** The facts ScheduleShape states about one row. */
  ghost predicate RowShaped(principal: real, rate: real, payment: real, s: seq<PaymentScheduleEntry>, k: nat)
    requires k < |s|
  {
    EntryShaped(s[k], PreviousBalance(principal, s, k), rate, payment, k)
  }

  /** Entry `e` is the row for month `k + 1`, paid from a balance of `previous`. */
  ghost predicate EntryShaped(e: PaymentScheduleEntry, previous: real, rate: real, payment: real, k: nat) {
    && e.month == k + 1
    && e.payment == payment
    && e.interest == previous * rate
    && e.principal + e.interest == payment
    && e.remainingBalance >= 0.0
    && (e.principal >= 0.0 ==> e.remainingBalance <= previous)
  }

  lemma RowShape(principal: real, rate: real, payment: real, count: nat, k: nat)
    requires principal >= 0.0 && k < count
    ensures |Schedule(principal, rate, payment, count)| == count
    ensures RowShaped(principal, rate, payment, Schedule(principal, rate, payment, count), k)
  {
    RowAt(principal, rate, payment, count, k);
    EntryShape(principal, rate, payment, k);
  }

  lemma EntryShape(principal: real, rate: real, payment: real, k: nat)
    requires principal >= 0.0
    ensures EntryShaped(EntryFor(principal, rate, payment, k), BalanceAfter(principal, rate, payment, k), rate, payment, k)
  {
    var b := BalanceAfter(principal, rate, payment, k);
    BalanceNonNegative(principal, rate, payment, k);
    StepShape(b, rate, payment);
  }

  /** One month on plain reals: the parts add up to the payment, and a non-negative principal part does not raise the balance. */
  lemma StepShape(b: real, rate: real, payment: real)
    requires b >= 0.0
    ensures (payment - b * rate) + b * rate == payment
    ensures Step(b, rate, payment) >= 0.0
    ensures payment - b * rate >= 0.0 ==> Step(b, rate, payment) <= b
  {
  }

  /**
   * The shape of every schedule, whatever the payment: `count` rows numbered
   * 1..count, each paying `payment`, split into interest on the previous
   * balance and principal, with a balance that is never negative and does not
   * grow in a month whose principal part is non-negative.
   */
  lemma ScheduleShape(principal: real, rate: real, payment: real, count: nat)
    requires principal >= 0.0
    ensures var s := Schedule(principal, rate, payment, count);
      && |s| == count
      && forall k | 0 <= k < count :: RowShaped(principal, rate, payment, s, k)
  {
    ScheduleLength(principal, rate, payment, count);
    forall k | 0 <= k < count
      ensures RowShaped(principal, rate, payment, Schedule(principal, rate, payment, count), k)
    {
      RowShape(principal, rate, payment, count, k);
    }
  }

  /** Month `k + 1` of the loop does not need the clamp: balance minus principal part is what remains. */
  ghost predicate NoClampAt(principal: real, rate: real, payment: real, k: nat) {
    BalanceAfter(principal, rate, payment, k + 1)
    == BalanceAfter(principal, rate, payment, k) - (payment - BalanceAfter(principal, rate, payment, k) * rate)
  }

  /** No month of the loop needs the clamp. */
  ghost predicate ClampIdle(principal: real, rate: real, payment: real, count: nat) {
    forall k: nat | k < count :: NoClampAt(principal, rate, payment, k)
  }

  /** Sum of the principal parts of a schedule, left to right. */
  function SumPrincipal(s: seq<PaymentScheduleEntry>): real {
    if s == [] then 0.0 else SumPrincipal(s[..|s| - 1]) + s[|s| - 1].principal
  }

  /** The principal parts of the first `count` months, added month by month. */
  function PrincipalPaid(principal: real, rate: real, payment: real, count: nat): real {
    if count == 0 then 0.0
    else PrincipalPaid(principal, rate, payment, count - 1) + EntryFor(principal, rate, payment, count - 1).principal
  }

  /** The schedule's principal column adds up to PrincipalPaid. */
  lemma {:induction false} SumPrincipalSchedule(principal: real, rate: real, payment: real, count: nat)
    ensures SumPrincipal(Schedule(principal, rate, payment, count)) == PrincipalPaid(principal, rate, payment, count)
  {
    if count > 0 {
      SumPrincipalSchedule(principal, rate, payment, count - 1);
      var s := Schedule(principal, rate, payment, count);
      assert s[..|s| - 1] == Schedule(principal, rate, payment, count - 1);
    }
  }

  /** When the clamp never fires, the principal parts add up to what the balance went down by. */
  lemma {:induction false} PrincipalTelescopes(principal: real, rate: real, payment: real, count: nat)
    requires ClampIdle(principal, rate, payment, count)
    ensures PrincipalPaid(principal, rate, payment, count) == principal - BalanceAfter(principal, rate, payment, count)
  {
    if count > 0 {
      assert ClampIdle(principal, rate, payment, count - 1);
      PrincipalTelescopes(principal, rate, payment, count - 1);
      assert NoClampAt(principal, rate, payment, count - 1);
    }
  }

  /** The closed form of the zero-rate balance after `k` months: q (n - k), q = P / n. */
  ghost predicate ZeroRateClosedForm(principal: real, months: nat, k: nat)
    requires months >= 1
  {
    BalanceAfter(principal, 0.0, principal / months as real, k) == (principal / months as real) * (months as real - k as real)
  }

  /** Zero rate: the balance after k months is (principal / months) (months - k). */
  lemma {:induction false} ZeroRateBalance(principal: real, months: nat, k: nat)
    requires principal >= 0.0 && months >= 1 && k <= months
    ensures ZeroRateClosedForm(principal, months, k)
  {
    if k == 0 {
      DivThenMul(principal, months as real);
    } else {
      ZeroRateBalance(principal, months, k - 1);
      ZeroRateBalanceStep(principal, months, k);
    }
  }

  /** One zero-rate month keeps the closed form, without the clamp. */
  lemma ZeroRateBalanceStep(principal: real, months: nat, k: nat)
    requires principal >= 0.0 && months >= 1 && 1 <= k <= months
    requires ZeroRateClosedForm(principal, months, k - 1)
    ensures ZeroRateClosedForm(principal, months, k)
    ensures NoClampAt(principal, 0.0, principal / months as real, k - 1)
  {
    var q := principal / months as real;
    var b := BalanceAfter(principal, 0.0, q, k - 1);
    var b1 := BalanceAfter(principal, 0.0, q, k);
    DivNonNegative(principal, months as real);
    assert b1 == Step(b, 0.0, q);
    ZeroRateStep(q, months as real - (k - 1) as real, months as real - k as real, b, b1);
  }

  lemma ZeroRateStep(q: real, previous: real, rest: real, b: real, b1: real)
    requires q >= 0.0 && rest >= 0.0 && previous == rest + 1.0
    requires b == q * previous && b1 == Step(b, 0.0, q)
    ensures b1 == b - (q - b * 0.0) && b1 == q * rest && b1 >= 0.0
  {
    MulMonotone(q, 0.0, rest);
  }


  /**
   * The month after `j`.  Quantified facts about consecutive months are
   * triggered on `Next(j)` only, so that instantiating one does not produce
   * terms for the month before.
   */
  function Next(j: nat): nat {
    j + 1
  }

  /** The balance the loop would hold after `k` months if it never clamped at 0. */
  ghost function Unclamped(principal: real, rate: real, payment: real, k: nat): real {
    if k == 0 then principal
    else Unclamped(principal, rate, payment, k - 1) - (payment - Unclamped(principal, rate, payment, k - 1) * rate)
  }

  /** While the clamp-free balance stays non-negative, the loop's balance is that balance. */
  lemma {:induction false} FollowsUnclamped(principal: real, rate: real, payment: real, months: nat, k: nat)
    requires k <= months
    requires forall j: nat {:trigger Unclamped(principal, rate, payment, j)} | 1 <= j <= months ::
      Unclamped(principal, rate, payment, j) >= 0.0
    ensures BalanceAfter(principal, rate, payment, k) == Unclamped(principal, rate, payment, k)
  {
    if k > 0 {
      FollowsUnclamped(principal, rate, payment, months, k - 1);
      var b := BalanceAfter(principal, rate, payment, k - 1);
      var u := Unclamped(principal, rate, payment, k - 1);
      MulCongruence(b, u, rate);
      assert Unclamped(principal, rate, payment, k) == u - (payment - u * rate) >= 0.0;
      assert BalanceAfter(principal, rate, payment, k) == Step(b, rate, payment);
    }
  }

  /** Two consecutive months on the clamp-free balance: that month does not clamp. */
  lemma NoClampFrom(principal: real, rate: real, payment: real, k: nat)
    requires BalanceAfter(principal, rate, payment, k) == Unclamped(principal, rate, payment, k)
    requires BalanceAfter(principal, rate, payment, k + 1) == Unclamped(principal, rate, payment, k + 1)
    ensures NoClampAt(principal, rate, payment, k)
  {
    MulCongruence(BalanceAfter(principal, rate, payment, k), Unclamped(principal, rate, payment, k), rate);
  }

  /**
   * The annuity closed form of the clamp-free balance: with `pow` the powers
   * of 1 + rate up to a = pow(months), a principal q (a - 1) and a payment
   * q r a leave q (a - pow(k)) after `k` months.
   */
  lemma AnnuityUnclamped(principal: real, rate: real, payment: real, pow: nat -> real, q: real,
                         months: nat, k: nat)
    requires k <= months && q >= 0.0
    requires principal == q * (pow(months) - pow(0)) && payment == q * (rate * pow(months))
    requires forall j: nat {:trigger Next(j)} | j < months ::
      pow(Next(j)) == (1.0 + rate) * pow(j) && pow(Next(j)) <= pow(months)
    ensures Unclamped(principal, rate, payment, k) == q * (pow(months) - pow(k))
  {
    var free := (j: nat) => Unclamped(principal, rate, payment, j);
    UnclampedFollows(free, principal, rate, payment, months);
    ClosedFormFollows(free, pow, rate, payment, q, months, k);
  }

  /** A function that agrees with Unclamped loses the principal part each month. */
  lemma UnclampedFollows(free: nat -> real, principal: real, rate: real, payment: real, months: nat)
    requires forall j: nat {:trigger free(j)} :: free(j) == Unclamped(principal, rate, payment, j)
    ensures free(0) == principal
    ensures forall j: nat {:trigger Next(j)} | j < months :: free(Next(j)) == free(j) - (payment - free(j) * rate)
  {
    forall j: nat | j < months
      ensures free(Next(j)) == free(j) - (payment - free(j) * rate)
    {
      assert Next(j) == j + 1;
    }
  }

  /** AnnuityUnclamped on plain values: `free` loses the principal part each month. */
  lemma {:induction false} ClosedFormFollows(free: nat -> real, pow: nat -> real, rate: real, payment: real, q: real,
                                             months: nat, k: nat)
    requires k <= months && q >= 0.0
    requires free(0) == q * (pow(months) - pow(0)) && payment == q * (rate * pow(months))
    requires forall j: nat {:trigger Next(j)} | j < months :: free(Next(j)) == free(j) - (payment - free(j) * rate)
    requires forall j: nat {:trigger Next(j)} | j < months ::
      pow(Next(j)) == (1.0 + rate) * pow(j) && pow(Next(j)) <= pow(months)
    ensures free(k) == q * (pow(months) - pow(k))
  {
    if k > 0 {
      ClosedFormFollows(free, pow, rate, payment, q, months, k - 1);
      assert Next(k - 1) == k;
      AnnuityStep(q, rate, 1.0 + rate, pow(months), pow(k - 1), pow(k), free(k - 1), payment);
    }
  }

  /** Under the hypotheses of AnnuityUnclamped, the clamp-free balance never goes below 0. */
  lemma AnnuityUnclampedNonNegative(principal: real, rate: real, payment: real, pow: nat -> real, q: real, months: nat)
    requires q >= 0.0
    requires principal == q * (pow(months) - pow(0)) && payment == q * (rate * pow(months))
    requires forall j: nat {:trigger Next(j)} | j < months ::
      pow(Next(j)) == (1.0 + rate) * pow(j) && pow(Next(j)) <= pow(months)
    ensures forall j: nat {:trigger Unclamped(principal, rate, payment, j)} | 1 <= j <= months ::
      Unclamped(principal, rate, payment, j) >= 0.0
  {
    forall j: nat | 1 <= j <= months
      ensures Unclamped(principal, rate, payment, j) >= 0.0
    {
      AnnuityUnclamped(principal, rate, payment, pow, q, months, j);
      assert Next(j - 1) == j;
      NonNegativeProduct(q, pow(months), pow(j));
    }
  }

  /** A function that agrees with the powers of x grows by x each month, up to x^months. */
  lemma PowFollows(pow: nat -> real, x: real, months: nat)
    requires x >= 1.0
    requires forall j: nat {:trigger pow(j)} :: pow(j) == Pow(x, j)
    ensures pow(0) == 1.0
    ensures forall j: nat {:trigger Next(j)} | j < months :: pow(Next(j)) == x * pow(j) && pow(Next(j)) <= pow(months)
  {
    forall j: nat | j < months
      ensures pow(Next(j)) == x * pow(j) && pow(Next(j)) <= pow(months)
    {
      PowNext(x, j, months);
    }
  }

  lemma PowNext(x: real, j: nat, months: nat)
    requires x >= 1.0 && j < months
    ensures Pow(x, Next(j)) == x * Pow(x, j) && Pow(x, Next(j)) <= Pow(x, months)
  {
    assert Next(j) == j + 1;
    assert Pow(x, j + 1) == x * Pow(x, j);
    PowMonotone(x, j + 1, months);
  }

  /**
   * Positive rate, a payment q r x^n on a principal q (x^n - 1), x = 1 + rate
   * (the calculator's payment, by AnnuityFactor): the clamp-free balance never
   * drops below 0 during the term and is exactly 0 after the last month.
   */
  lemma AnnuityClampFree(principal: real, rate: real, payment: real, q: real, months: nat)
    requires rate > 0.0 && q >= 0.0
    requires q * (Pow(1.0 + rate, months) - 1.0) == principal
    requires payment == q * (rate * Pow(1.0 + rate, months))
    ensures forall j: nat {:trigger Unclamped(principal, rate, payment, j)} | 1 <= j <= months ::
      Unclamped(principal, rate, payment, j) >= 0.0
    ensures Unclamped(principal, rate, payment, months) == 0.0
  {
    var pow := (j: nat) => Pow(1.0 + rate, j);
    PowFollows(pow, 1.0 + rate, months);
    var a := Pow(1.0 + rate, months);
    MulCongruence(a - 1.0, pow(months) - pow(0), q);
    MulCongruence(a, pow(months), rate);
    MulCongruence(a * rate, pow(months) * rate, q);
    assert principal == q * (pow(months) - pow(0)) && payment == q * (rate * pow(months));
    AnnuityUnclampedNonNegative(principal, rate, payment, pow, q, months);
    AnnuityUnclamped(principal, rate, payment, pow, q, months, months);
    ZeroGap(q, pow(months));
  }

  /** While the clamp-free balance stays non-negative, month `k + 1` needs no clamp. */
  lemma ClampFreeMonth(principal: real, rate: real, payment: real, months: nat, k: nat)
    requires k < months
    requires forall j: nat {:trigger Unclamped(principal, rate, payment, j)} | 1 <= j <= months ::
      Unclamped(principal, rate, payment, j) >= 0.0
    ensures NoClampAt(principal, rate, payment, k)
  {
    FollowsUnclamped(principal, rate, payment, months, k);
    FollowsUnclamped(principal, rate, payment, months, k + 1);
    NoClampFrom(principal, rate, payment, k);
  }

  /** Positive rate: the calculator's payment leaves nothing after the last month and never needs the clamp. */
  lemma AnnuityAmortises(principal: real, rate: real, payment: real, months: nat)
    requires principal >= 0.0 && rate > 0.0 && months >= 1
    requires payment == MonthlyPaymentFor(principal, rate, months)
    ensures BalanceAfter(principal, rate, payment, months) == 0.0
    ensures ClampIdle(principal, rate, payment, months)
  {
    var q := AnnuityFactor(principal, rate, months);
    AnnuityClampFree(principal, rate, payment, q, months);
    FollowsUnclamped(principal, rate, payment, months, months);
    forall k: nat | k < months
      ensures NoClampAt(principal, rate, payment, k)
    {
      ClampFreeMonth(principal, rate, payment, months, k);
    }
  }

  /** The arithmetic of one annuity month: q (a - x^k) becomes q (a - x^(k+1)). */
  lemma AnnuityStep(q: real, rate: real, x: real, a: real, xk: real, xk1: real, b: real, m: real)
    requires x == 1.0 + rate && m == q * (rate * a) && b == q * (a - xk) && xk1 == x * xk
    ensures b - (m - b * rate) == q * (a - xk1)
  {
    assert b - (m - b * rate) == q * (a - xk) * (1.0 + rate) - q * (rate * a);
  }

  lemma ZeroGap(q: real, a: real)
    ensures q * (a - a) == 0.0
  {
  }

  lemma NonNegativeProduct(q: real, a: real, y: real)
    requires q >= 0.0 && y <= a
    ensures q * (a - y) >= 0.0
  {
    MulMonotone(q, 0.0, a - y);
  }

  /** Zero rate: the calculator's payment leaves nothing after the last month and never needs the clamp. */
  lemma ZeroRateAmortises(principal: real, payment: real, months: nat)
    requires principal >= 0.0 && months >= 1
    requires payment == MonthlyPaymentFor(principal, 0.0, months)
    ensures BalanceAfter(principal, 0.0, payment, months) == 0.0
    ensures ClampIdle(principal, 0.0, payment, months)
  {
    ZeroRateBalance(principal, months, months);
    assert payment == principal / months as real;
    forall k: nat | k < months
      ensures NoClampAt(principal, 0.0, payment, k)
    {
      ZeroRateBalance(principal, months, k);
      ZeroRateBalanceStep(principal, months, k + 1);
    }
  }

  /** With the calculator's own payment the loop never clamps and ends at exactly 0. */
  lemma PaymentAmortises(principal: real, rate: real, payment: real, months: nat)
    requires principal >= 0.0 && rate >= 0.0 && months >= 1
    requires payment == MonthlyPaymentFor(principal, rate, months)
    ensures BalanceAfter(principal, rate, payment, months) == 0.0
    ensures ClampIdle(principal, rate, payment, months)
  {
    if rate == 0.0 {
      ZeroRateAmortises(principal, payment, months);
    } else {
      AnnuityAmortises(principal, rate, payment, months);
    }
  }

  /**
   * For the calculator's own payment the schedule amortises exactly: the clamp
   * never fires, the last remaining balance is exactly 0, and the principal
   * parts add up to the principal.
   */
  lemma ScheduleAmortises(principal: real, rate: real, payment: real, months: nat)
    requires principal >= 0.0 && rate >= 0.0 && months >= 1
    requires payment == MonthlyPaymentFor(principal, rate, months)
    ensures var s := Schedule(principal, rate, payment, months);
      && ClampIdle(principal, rate, payment, months)
      && |s| == months
      && s[months - 1].remainingBalance == 0.0
      && SumPrincipal(s) == principal
      && forall k | 0 <= k < months :: s[k].remainingBalance == PreviousBalance(principal, s, k) - s[k].principal
  {
    var s := Schedule(principal, rate, payment, months);
    PaymentAmortises(principal, rate, payment, months);
    PrincipalTelescopes(principal, rate, payment, months);
    SumPrincipalSchedule(principal, rate, payment, months);
    RowAt(principal, rate, payment, months, months - 1);
    EntryBalance(principal, rate, payment, months - 1);
    forall k | 0 <= k < months
      ensures s[k].remainingBalance == PreviousBalance(principal, s, k) - s[k].principal
    {
      RowAt(principal, rate, payment, months, k);
      EntryBalance(principal, rate, payment, k);
      assert NoClampAt(principal, rate, payment, k);
    }
  }

  /** Zero rate: the payment is principal / months, and every row is that much principal and no interest. */
  lemma ZeroRateSchedule(principal: real, payment: real, months: nat)
    requires principal >= 0.0 && months >= 1
    requires payment == MonthlyPaymentFor(principal, 0.0, months)
    ensures var s := Schedule(principal, 0.0, payment, months);
      && payment == principal / months as real
      && |s| == months
      && forall k | 0 <= k < months :: s[k].interest == 0.0 && s[k].principal == payment
  {
    var s := Schedule(principal, 0.0, payment, months);
    ScheduleLength(principal, 0.0, payment, months);
    forall k | 0 <= k < months
      ensures s[k].interest == 0.0 && s[k].principal == payment
    {
      RowAt(principal, 0.0, payment, months, k);
      var b := BalanceAfter(principal, 0.0, payment, k);
      assert b * 0.0 == 0.0;
    }
  }

  // ---------------------------------------------------------------------------
  // Custom payment
  // ---------------------------------------------------------------------------

  /** `parseFloat` of a form field: an empty field gives NaN. */
  function ParseFloat(field: Option<real>): JsNumber {
    match field
    case Some(v) => Finite(v)
    case None => NonFinite
  }

  /** `Math.ceil(principal / customPayment)`: the least whole number of payments that covers the principal. */
  lemma CeilPayoffIsLeast(principal: real, customPayment: real)
    requires customPayment > 0.0
    ensures var n := Ceil(principal / customPayment);
      && n as real * customPayment >= principal
      && (n - 1) as real * customPayment < principal
  {
    var n := Ceil(principal / customPayment);
    DivThenMul(principal, customPayment);
    CeilScaled(principal / customPayment, n as real, (n - 1) as real, customPayment);
    assert (n - 1) as real * customPayment < principal / customPayment * customPayment;
    assert principal / customPayment * customPayment == principal;
    assert (n - 1) as real * customPayment < principal;
    assert n == Ceil(principal / customPayment);
  }

  /** n is the least whole number at or above t; scaled by c > 0, n c reaches t c and (n - 1) c falls short. */
  lemma CeilScaled(t: real, n: real, m: real, c: real)
    requires c > 0.0 && t <= n < t + 1.0 && m == n - 1.0
    ensures n * c >= t * c && m * c < t * c
  {
    MulMonotone(c, t, n);
    StrictScale(c, m, t);
  }

  /**
   * The outcome of the logarithm branch, n = -ln(1 - P r / A) / ln(1 + r),
   * against a given natural logarithm `ln` (meaningful only on positive
   * arguments); every input on which `Math.log` or the division yields NaN or
   * an infinity gives `NonFinite`.
   */
  function LogPayoff(ln: real -> real, principal: real, monthlyRate: real, customPayment: real): JsNumber
    requires customPayment > 0.0
  {
    var arg := 1.0 - (principal * monthlyRate) / customPayment;
    if arg <= 0.0 || 1.0 + monthlyRate <= 0.0 || ln(1.0 + monthlyRate) == 0.0 then NonFinite
    else Finite(Ceil(-ln(arg) / ln(1.0 + monthlyRate)) as real)
  }

  // ---------------------------------------------------------------------------
  // Saved loans and their totals
  // ---------------------------------------------------------------------------

  /** A saved loan; the three money fields are the calculator's results when it was saved. */
  datatype Loan = Loan(
    id: string,
    name: string,
    principal: real,
    interestRate: real,
    loanTerm: int,
    monthlyPayment: real,
    totalAmountPaid: real,
    totalInterest: real,
    notes: Option<string>,
    createdAt: int,
    updatedAt: int)

  /** The quantities the totals add up, one loan at a time. */
  datatype LoanMeasure =
    | MonthlyPaymentOf
    | PrincipalOf
    | TotalInterestOf
    | DailyInterestOf
    | WeeklyInterestOf
    | TotalAmountPaidOf
    | PrincipalPlusInterestOf

  function Contribution(loan: Loan, m: LoanMeasure): real {
    match m
    case MonthlyPaymentOf => loan.monthlyPayment
    case PrincipalOf => loan.principal
    case TotalInterestOf => loan.totalInterest
    case DailyInterestOf => loan.principal * loan.interestRate / 100.0 / 365.0
    case WeeklyInterestOf => loan.principal * loan.interestRate / 100.0 / 52.0
    case TotalAmountPaidOf => loan.totalAmountPaid
    case PrincipalPlusInterestOf => loan.principal + loan.totalInterest
  }

  /** `loans.reduce((sum, loan) => sum + measure(loan), 0)`. */
  function Sum(loans: seq<Loan>, m: LoanMeasure): real {
    if loans == [] then 0.0 else Sum(loans[..|loans| - 1], m) + Contribution(loans[|loans| - 1], m)
  }

  lemma {:induction false} SumAppend(a: seq<Loan>, b: seq<Loan>, m: LoanMeasure)
    ensures Sum(a + b, m) == Sum(a, m) + Sum(b, m)
  {
    if b == [] {
      assert a + b == a;
    } else {
      assert (a + b)[..|a + b| - 1] == a + b[..|b| - 1];
      assert (a + b)[|a + b| - 1] == b[|b| - 1];
      SumAppend(a, b[..|b| - 1], m);
    }
  }

  lemma SumSingle(loan: Loan, m: LoanMeasure)
    ensures Sum([loan], m) == Contribution(loan, m)
  {
    assert [loan][..0] == [];
  }

  /** Taking out the loan at `j` takes its contribution out of the sum and its occurrence out of the multiset. */
  lemma SumRemoveAt(b: seq<Loan>, j: nat, m: LoanMeasure)
    requires j < |b|
    ensures multiset(b) == multiset(b[..j] + b[j + 1..]) + multiset{b[j]}
    ensures Sum(b, m) == Sum(b[..j] + b[j + 1..], m) + Contribution(b[j], m)
  {
    assert b == b[..j] + [b[j]] + b[j + 1..];
    SumAppend(b[..j] + [b[j]], b[j + 1..], m);
    SumAppend(b[..j], [b[j]], m);
    SumAppend(b[..j], b[j + 1..], m);
    SumSingle(b[j], m);
  }

  lemma MultisetCancel(x: multiset<Loan>, y: multiset<Loan>, e: Loan)
    requires x + multiset{e} == y + multiset{e}
    ensures x == y
  {
    forall z: Loan
      ensures x[z] == y[z]
    {
      assert (x + multiset{e})[z] == (y + multiset{e})[z];
    }
  }

  /** A sum over loans does not depend on their order. */
  lemma {:induction false} SumPermutation(a: seq<Loan>, b: seq<Loan>, m: LoanMeasure)
    requires multiset(a) == multiset(b)
    ensures Sum(a, m) == Sum(b, m)
  {
    if a != [] {
      var last := a[|a| - 1];
      assert a == a[..|a| - 1] + [last];
      assert last in multiset(b);
      var j :| 0 <= j < |b| && b[j] == last;
      SumRemoveAt(b, j, m);
      assert multiset(a) == multiset(a[..|a| - 1]) + multiset{last};
      MultisetCancel(multiset(a[..|a| - 1]), multiset(b[..j] + b[j + 1..]), last);
      SumPermutation(a[..|a| - 1], b[..j] + b[j + 1..], m);
    } else {
      assert |b| == |multiset(b)|;
    }
  }

  /** Adding two measures' sums is summing the added measure. */
  lemma {:induction false} SumPrincipalPlusInterest(loans: seq<Loan>)
    ensures Sum(loans, PrincipalPlusInterestOf) == Sum(loans, PrincipalOf) + Sum(loans, TotalInterestOf)
  {
    if loans != [] {
      SumPrincipalPlusInterest(loans[..|loans| - 1]);
    }
  }

  /** Two measures that agree on every loan have the same sum. */
  lemma {:induction false} SumAgree(loans: seq<Loan>, m1: LoanMeasure, m2: LoanMeasure)
    requires forall i | 0 <= i < |loans| :: Contribution(loans[i], m1) == Contribution(loans[i], m2)
    ensures Sum(loans, m1) == Sum(loans, m2)
  {
    if loans != [] {
      SumAgree(loans[..|loans| - 1], m1, m2);
    }
  }

  /** The six figures of the totals panel. */
  datatype Totals = Totals(
    totalMonthlyPayments: real,
    totalPrincipal: real,
    totalInterestAllLoans: real,
    totalAmountAllLoans: real,
    totalDailyInterest: real,
    totalWeeklyInterest: real)
  {
    function Plus(other: Totals): Totals {
      Totals(
        totalMonthlyPayments + other.totalMonthlyPayments,
        totalPrincipal + other.totalPrincipal,
        totalInterestAllLoans + other.totalInterestAllLoans,
        totalAmountAllLoans + other.totalAmountAllLoans,
        totalDailyInterest + other.totalDailyInterest,
        totalWeeklyInterest + other.totalWeeklyInterest)
    }
  }

  const NoTotals := Totals(0.0, 0.0, 0.0, 0.0, 0.0, 0.0)

  /** The totals, computed the way the component computes them. */
  function AggregateTotals(loans: seq<Loan>): Totals {
    var principal := Sum(loans, PrincipalOf);
    var interest := Sum(loans, TotalInterestOf);
    Totals(
      Sum(loans, MonthlyPaymentOf),
      principal,
      interest,
      principal + interest,
      Sum(loans, DailyInterestOf),
      Sum(loans, WeeklyInterestOf))
  }

  /** What one loan adds to the totals. */
  function LoanTotals(loan: Loan): Totals {
    Totals(
      loan.monthlyPayment,
      loan.principal,
      loan.totalInterest,
      loan.principal + loan.totalInterest,
      Contribution(loan, DailyInterestOf),
      Contribution(loan, WeeklyInterestOf))
  }

  /**
   * The total amount is the sum over loans of principal plus interest, and, for
   * loans saved from the calculator (amount paid = principal + interest), the
   * sum of the amounts paid.  An empty list gives all-zero totals.
   */
  lemma TotalAmountIsPerLoanSum(loans: seq<Loan>)
    ensures AggregateTotals(loans).totalAmountAllLoans == Sum(loans, PrincipalPlusInterestOf)
    ensures (forall i | 0 <= i < |loans| :: loans[i].totalAmountPaid == loans[i].principal + loans[i].totalInterest)
            ==> AggregateTotals(loans).totalAmountAllLoans == Sum(loans, TotalAmountPaidOf)
    ensures loans == [] ==> AggregateTotals(loans) == NoTotals
  {
    SumPrincipalPlusInterest(loans);
    if forall i | 0 <= i < |loans| :: loans[i].totalAmountPaid == loans[i].principal + loans[i].totalInterest {
      SumAgree(loans, PrincipalPlusInterestOf, TotalAmountPaidOf);
    }
  }

  /** Appending a loan adds exactly its contribution to each of the six totals. */
  lemma AggregateAppend(loans: seq<Loan>, loan: Loan)
    ensures AggregateTotals(loans + [loan]) == AggregateTotals(loans).Plus(LoanTotals(loan))
  {
    assert (loans + [loan])[..|loans|] == loans;
  }

  /** Removing loan `i` takes away exactly its contribution from each of the six totals. */
  lemma AggregateRemove(loans: seq<Loan>, i: nat)
    requires i < |loans|
    ensures AggregateTotals(loans) == AggregateTotals(loans[..i] + loans[i + 1..]).Plus(LoanTotals(loans[i]))
  {
    var rest := loans[..i] + loans[i + 1..];
    assert multiset(loans) == multiset(rest + [loans[i]]) by {
      assert loans == loans[..i] + [loans[i]] + loans[i + 1..];
    }
    forall m: LoanMeasure
      ensures Sum(loans, m) == Sum(rest, m) + Contribution(loans[i], m)
    {
      SumPermutation(loans, rest + [loans[i]], m);
      assert (rest + [loans[i]])[..|rest|] == rest;
    }
  }

  /** Two orderings of the same loans give the same totals. */
  lemma AggregateOrderIndependent(a: seq<Loan>, b: seq<Loan>)
    requires multiset(a) == multiset(b)
    ensures AggregateTotals(a) == AggregateTotals(b)
  {
    forall m: LoanMeasure ensures Sum(a, m) == Sum(b, m) {
      SumPermutation(a, b, m);
    }
  }

  // ---------------------------------------------------------------------------
  // The component
  // ---------------------------------------------------------------------------

  /** The calculator form; an empty input is `None`. */
  datatype FormValues = FormValues(
    loanName: string,
    principal: Option<real>,
    interestRate: Option<real>,
    loanTerm: Option<real>,
    notes: string)

  const EmptyForm := FormValues("", None, None, None, "")

  /** The form validators: principal required and >= 0.01, rate required and >= 0, term required and >= 1. */
  predicate FormValid(f: FormValues) {
    && f.principal.Some? && f.principal.value >= 0.01
    && f.interestRate.Some? && f.interestRate.value >= 0.0
    && f.loanTerm.Some? && f.loanTerm.value >= 1.0
  }

  /** `parseInt` of a non-negative number: its whole part. */
  method ParseInt(value: real) returns (n: int)
    requires value >= 0.0
    ensures n >= 0 && n as real <= value < n as real + 1.0
  {
    n := value.Floor;
  }

  /** The figures a calculation shows. */
  datatype Calculation = Calculation(
    monthlyPayment: real,
    totalAmountPaid: real,
    totalInterest: real,
    dailyInterest: real,
    weeklyInterest: real)

  /**
   * The figures for a loan of `principal` at `percent` a year over `months`:
   * the fixed payment, the total paid and the interest in it, and simple
   * daily (over 365 days) and weekly (over 52 weeks) interest.
   */
  function Calculate(principal: real, percent: real, months: nat): (c: Calculation)
    requires percent >= 0.0 && months >= 1
  {
    var annualRate := percent / 100.0;
    var payment := MonthlyPaymentFor(principal, MonthlyRate(percent), months);
    var total := payment * months as real;
    Calculation(payment, total, total - principal, (principal * annualRate) / 365.0, (principal * annualRate) / 52.0)
  }

  /**
   * The total interest of a calculation with a positive principal is never
   * negative, and it is zero exactly when the rate is zero.
   */
  lemma CalculationInterest(principal: real, percent: real, months: nat)
    requires principal > 0.0 && percent >= 0.0 && months >= 1
    ensures Calculate(principal, percent, months).totalInterest >= 0.0
    ensures Calculate(principal, percent, months).totalInterest == 0.0 <==> percent == 0.0
  {
    PaymentCoversPrincipal(principal, MonthlyRate(percent), MonthlyPaymentFor(principal, MonthlyRate(percent), months), months);
  }

  /**
   * The schedule generated for a calculation has one row per month, ends at a
   * balance of exactly 0, and its principal parts add up to the principal.
   */
  lemma CalculationSchedule(principal: real, percent: real, months: nat)
    requires principal >= 0.0 && percent >= 0.0 && months >= 1
    ensures var s := Schedule(principal, MonthlyRate(percent), Calculate(principal, percent, months).monthlyPayment, months);
      && |s| == months
      && s[months - 1].remainingBalance == 0.0
      && SumPrincipal(s) == principal
  {
    ScheduleAmortises(principal, MonthlyRate(percent), MonthlyPaymentFor(principal, MonthlyRate(percent), months), months);
  }

  class DebtCalculatorComponent {
    var form: FormValues
    var monthlyPayment: real
    var totalAmountPaid: real
    var totalInterest: real
    var dailyInterest: real
    var weeklyInterest: real
    var loanTerm: int
    var paymentSchedule: seq<PaymentScheduleEntry>
    var showFullSchedule: bool
    var customPayment: real
    var customMonthsToPayoff: JsNumber
    var customTotalInterest: JsNumber
    var loans: seq<Loan>
    var totalMonthlyPayments: real
    var totalPrincipal: real
    var totalInterestAllLoans: real
    var totalAmountAllLoans: real
    var totalDailyInterest: real
    var totalWeeklyInterest: real

    /** The six aggregate fields, read as one value. */
    function ShownTotals(): Totals
      reads this
    {
      Totals(totalMonthlyPayments, totalPrincipal, totalInterestAllLoans,
             totalAmountAllLoans, totalDailyInterest, totalWeeklyInterest)
    }

    constructor ()
      ensures form == EmptyForm && loans == [] && paymentSchedule == []
      ensures monthlyPayment == 0.0 && totalAmountPaid == 0.0 && totalInterest == 0.0
      ensures dailyInterest == 0.0 && weeklyInterest == 0.0 && loanTerm == 0
      ensures customPayment == 0.0 && customMonthsToPayoff == Finite(0.0) && customTotalInterest == Finite(0.0)
      ensures !showFullSchedule && ShownTotals() == NoTotals
    {
      form := EmptyForm;
      monthlyPayment, totalAmountPaid, totalInterest := 0.0, 0.0, 0.0;
      dailyInterest, weeklyInterest, loanTerm := 0.0, 0.0, 0;
      paymentSchedule, showFullSchedule := [], false;
      customPayment, customMonthsToPayoff, customTotalInterest := 0.0, Finite(0.0), Finite(0.0);
      loans := [];
      totalMonthlyPayments, totalPrincipal, totalInterestAllLoans := 0.0, 0.0, 0.0;
      totalAmountAllLoans, totalDailyInterest, totalWeeklyInterest := 0.0, 0.0, 0.0;
    }

    /** The five figures shown for the calculated loan, read as one value. */
    function Figures(): Calculation
      reads this
    {
      Calculation(monthlyPayment, totalAmountPaid, totalInterest, dailyInterest, weeklyInterest)
    }

    /**
     * Computes the payment, totals, simple daily and weekly interest and the
     * schedule for the loan in the form; does nothing while the form is invalid.
     */
    method CalculatePayment()
      modifies this`monthlyPayment, this`totalAmountPaid, this`totalInterest, this`dailyInterest,
               this`weeklyInterest, this`loanTerm, this`paymentSchedule
      ensures !FormValid(form) ==>
        Figures() == old(Figures()) && loanTerm == old(loanTerm) && paymentSchedule == old(paymentSchedule)
      ensures FormValid(form) ==>
        var principal := form.principal.value;
        var percent := form.interestRate.value;
        && loanTerm >= 1 && loanTerm as real <= form.loanTerm.value < loanTerm as real + 1.0
        && Figures() == Calculate(principal, percent, loanTerm)
        && paymentSchedule == Schedule(principal, MonthlyRate(percent), monthlyPayment, loanTerm)
    {
      if !FormValid(form) {
        return;
      }
      var principal := form.principal.value;
      var percent := form.interestRate.value;
      var months := ParseInt(form.loanTerm.value);
      loanTerm := months;
      var monthlyRate := percent / 100.0 / 12.0;
      var c := Calculate(principal, percent, months);
      monthlyPayment := c.monthlyPayment;
      totalAmountPaid := c.totalAmountPaid;
      totalInterest := c.totalInterest;
      dailyInterest := c.dailyInterest;
      weeklyInterest := c.weeklyInterest;
      GeneratePaymentSchedule(principal, monthlyRate, months);
    }

    /** Replaces the schedule with `months` rows built from `principal`, `monthlyRate` and the current payment. */
    method GeneratePaymentSchedule(principal: real, monthlyRate: real, months: int)
      modifies this`paymentSchedule
      ensures paymentSchedule == Schedule(principal, monthlyRate, monthlyPayment, if months > 0 then months else 0)
    {
      paymentSchedule := [];
      var remainingBalance := principal;
      var month := 1;
      while month <= months
        invariant 1 <= month <= (if months > 0 then months else 0) + 1
        invariant paymentSchedule == Schedule(principal, monthlyRate, monthlyPayment, month - 1)
        invariant remainingBalance == BalanceAfter(principal, monthlyRate, monthlyPayment, month - 1)
      {
        var interest := remainingBalance * monthlyRate;
        var principalPayment := monthlyPayment - interest;
        remainingBalance := Max0(remainingBalance - principalPayment);
        assert PaymentScheduleEntry(month, monthlyPayment, principalPayment, interest, remainingBalance)
            == EntryFor(principal, monthlyRate, monthlyPayment, month - 1);
        paymentSchedule := paymentSchedule + [PaymentScheduleEntry(month, monthlyPayment, principalPayment, interest, remainingBalance)];
        month := month + 1;
      }
    }

    /**
     * Payoff time and interest for the custom payment: both 0 when the custom
     * payment or the computed payment is not positive; at a zero rate the least
     * number of payments covering the principal and no interest; otherwise the
     * logarithm formula against `ln`.
     */
    method CalculateCustomPayment(ln: real -> real)
      modifies this`customMonthsToPayoff, this`customTotalInterest
      ensures customPayment <= 0.0 || monthlyPayment <= 0.0 ==>
        customMonthsToPayoff == Finite(0.0) && customTotalInterest == Finite(0.0)
      ensures customPayment > 0.0 && monthlyPayment > 0.0 && form.interestRate == Some(0.0) ==>
        && customTotalInterest == Finite(0.0)
        && (form.principal.None? ==> customMonthsToPayoff == NonFinite)
        && (form.principal.Some? ==>
              customMonthsToPayoff == Finite(Ceil(form.principal.value / customPayment) as real))
      ensures customPayment > 0.0 && monthlyPayment > 0.0 && form.interestRate != Some(0.0) ==>
        if form.principal.None? || form.interestRate.None? then
          customMonthsToPayoff == NonFinite && customTotalInterest == NonFinite
        else
          var payoff := LogPayoff(ln, form.principal.value, MonthlyRate(form.interestRate.value), customPayment);
          && customMonthsToPayoff == payoff
          && customTotalInterest == (if payoff.NonFinite? then NonFinite
                                     else Finite(customPayment * payoff.value - form.principal.value))
    {
      if customPayment <= 0.0 || monthlyPayment <= 0.0 {
        customMonthsToPayoff := Finite(0.0);
        customTotalInterest := Finite(0.0);
        return;
      }
      var principal := ParseFloat(form.principal);
      var rate := ParseFloat(form.interestRate);
      if rate == Finite(0.0) {
        if principal.Finite? {
          customMonthsToPayoff := Finite(Ceil(principal.value / customPayment) as real);
        } else {
          customMonthsToPayoff := NonFinite;
        }
        customTotalInterest := Finite(0.0);
      } else if principal.NonFinite? || rate.NonFinite? {
        customMonthsToPayoff := NonFinite;
        customTotalInterest := NonFinite;
      } else {
        var monthlyRate := rate.value / 100.0 / 12.0;
        customMonthsToPayoff := LogPayoff(ln, principal.value, monthlyRate, customPayment);
        customTotalInterest := if customMonthsToPayoff.NonFinite? then NonFinite
                               else Finite(customPayment * customMonthsToPayoff.value - principal.value);
      }
    }

    /** Clears the form and every computed figure. */
    method ResetForm()
      modifies this`form, this`monthlyPayment, this`totalAmountPaid, this`totalInterest,
               this`dailyInterest, this`weeklyInterest, this`loanTerm, this`paymentSchedule,
               this`customPayment, this`customMonthsToPayoff, this`customTotalInterest,
               this`showFullSchedule
      ensures form == EmptyForm && !FormValid(form)
      ensures monthlyPayment == 0.0 && totalAmountPaid == 0.0 && totalInterest == 0.0
      ensures dailyInterest == 0.0 && weeklyInterest == 0.0 && loanTerm == 0 && paymentSchedule == []
      ensures customPayment == 0.0 && customMonthsToPayoff == Finite(0.0) && customTotalInterest == Finite(0.0)
      ensures !showFullSchedule
    {
      form := EmptyForm;
      monthlyPayment := 0.0;
      totalAmountPaid := 0.0;
      totalInterest := 0.0;
      dailyInterest := 0.0;
      weeklyInterest := 0.0;
      loanTerm := 0;
      paymentSchedule := [];
      customPayment := 0.0;
      customMonthsToPayoff := Finite(0.0);
      customTotalInterest := Finite(0.0);
      showFullSchedule := false;
    }

    /** Recomputes the six totals from the current loans. */
    method CalculateAggregateTotals()
      modifies this`totalMonthlyPayments, this`totalPrincipal, this`totalInterestAllLoans,
               this`totalAmountAllLoans, this`totalDailyInterest, this`totalWeeklyInterest
      ensures ShownTotals() == AggregateTotals(loans)
      ensures totalAmountAllLoans == totalPrincipal + totalInterestAllLoans
      ensures loans == [] ==> ShownTotals() == NoTotals
    {
      totalMonthlyPayments := Sum(loans, MonthlyPaymentOf);
      totalPrincipal := Sum(loans, PrincipalOf);
      totalInterestAllLoans := Sum(loans, TotalInterestOf);
      totalAmountAllLoans := totalPrincipal + totalInterestAllLoans;
      totalDailyInterest := Sum(loans, DailyInterestOf);
      totalWeeklyInterest := Sum(loans, WeeklyInterestOf);
    }

    /** The subscription to the loan list: store the new list and recompute the totals. */
    method OnLoansChanged(newLoans: seq<Loan>)
      modifies this`loans, this`totalMonthlyPayments, this`totalPrincipal, this`totalInterestAllLoans,
               this`totalAmountAllLoans, this`totalDailyInterest, this`totalWeeklyInterest
      ensures loans == newLoans && ShownTotals() == AggregateTotals(newLoans)
    {
      loans := newLoans;
      CalculateAggregateTotals();
    }
  }
}
