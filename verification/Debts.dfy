/**
 Loan amortization. A fixed payment meets interest that compounds once a period and is
 rounded to whole cents each time. Rates are exact reals: the rounding that matters is the
 cent rounding of every period's interest, which the model keeps.
 */
module Debts {
  import opened Numbers
  import opened Records

  // 50 years of weekly payments
  const MAX_STEPS := 2600

  datatype Loan = Loan(remainingCents: int, interestPctYear: Option<real>, perYear: real)

  datatype Projection = Projection(months: int, endMonth: int, totalInterestCents: int)

  // halves go up, as the platform's rounding does for either sign
  function Round(x: real): int {
    (x + 0.5).Floor
  }

  function Ceil(x: real): int {
    -(-x).Floor
  }

  function PeriodRate(loan: Loan): real
    requires loan.perYear != 0.0
  {
    (match loan.interestPctYear case Some(pct) => pct case None => 0.0) / 100.0 / loan.perYear
  }

  function Interest(rate: real, balance: int): int {
    Round(balance as real * rate)
  }

  // what is owed after `k` payments, and the interest charged on the way
  function Owed(rate: real, remaining: int, payment: int, k: nat): int {
    if k == 0 then remaining
    else
      var balance := Owed(rate, remaining, payment, k - 1);
      balance + Interest(rate, balance) - payment
  }

  function Charged(rate: real, remaining: int, payment: int, k: nat): int {
    if k == 0 then 0
    else Charged(rate, remaining, payment, k - 1) + Interest(rate, Owed(rate, remaining, payment, k - 1))
  }

  // the debt is alive before payment `k`, and that payment is larger than the interest due
  predicate Bites(rate: real, remaining: int, payment: int, k: nat) {
    var balance := Owed(rate, remaining, payment, k);
    balance > 0 && payment > Interest(rate, balance)
  }

  // the debt is gone after exactly `n` payments
  ghost predicate PaidAfter(rate: real, remaining: int, payment: int, n: nat) {
    && Owed(rate, remaining, payment, n) <= 0
    && forall k: nat :: k < n ==> Bites(rate, remaining, payment, k)
  }

  predicate Asked(loan: Loan, payment: Option<int>) {
    payment.Some? && payment.value > 0 && loan.remainingCents > 0 && loan.perYear > 0.0
  }

  function StepLimit(perYear: real): (limit: nat)
    requires perYear > 0.0
    ensures limit > 0
  {
    var x := perYear * 50.0;
    assert (-x).Floor as real <= -x;
    Min(MAX_STEPS, Ceil(x))
  }

  ghost predicate Answer(loan: Loan, payment: Option<int>, n: nat) {
    && Asked(loan, payment)
    && n <= StepLimit(loan.perYear)
    && PaidAfter(PeriodRate(loan), loan.remainingCents, payment.value, n)
  }

  function Months(perYear: real, steps: int): int
    requires perYear != 0.0
  {
    Max(1, Round((steps * 12) as real / perYear))
  }

  function ProjectionFor(loan: Loan, payment: int, thisMonth: int, n: nat): Projection
    requires loan.perYear != 0.0
  {
    var months := Months(loan.perYear, n);
    Projection(months, thisMonth + months, Charged(PeriodRate(loan), loan.remainingCents, payment, n))
  }

  /** Months are counted from year 0, so the final month is a sum. */
  method ProjectPayoff(loan: Loan, paymentCents: Option<int>, thisMonth: int) returns (r: Option<Projection>)
    ensures r.None? ==> forall n: nat :: !Answer(loan, paymentCents, n)
    ensures r.Some? ==> exists n: nat ::
      Answer(loan, paymentCents, n) && r.value == ProjectionFor(loan, paymentCents.value, thisMonth, n)
  {
    if !Asked(loan, paymentCents) {
      return None;
    }
    var payment := paymentCents.value;
    var rate := PeriodRate(loan);
    var balance := loan.remainingCents;
    var totalInterest := 0;
    var steps: nat := 0;
    var maxSteps := StepLimit(loan.perYear);
    while balance > 0 && steps < maxSteps
      invariant balance == Owed(rate, loan.remainingCents, payment, steps)
      invariant totalInterest == Charged(rate, loan.remainingCents, payment, steps)
      invariant forall k: nat :: k < steps ==> Bites(rate, loan.remainingCents, payment, k)
      invariant steps <= maxSteps
    {
      var interest := Interest(rate, balance);
      if payment <= interest {
        NotBefore(loan, payment, steps);
        return None;
      }
      assert Bites(rate, loan.remainingCents, payment, steps);
      totalInterest := totalInterest + interest;
      balance := balance + interest - payment;
      steps := steps + 1;
    }
    if balance > 0 {
      NotBefore(loan, payment, steps);
      return None;
    }
    assert steps > 0;
    assert Answer(loan, paymentCents, steps);
    var months := Months(loan.perYear, steps);
    return Some(Projection(months, thisMonth + months, totalInterest));
  }

  // a debt alive after `m` payments was not paid off by then; one that stalls there never is
  lemma NotBefore(loan: Loan, payment: int, m: nat)
    requires loan.perYear > 0.0
    requires forall k: nat :: k < m ==> Bites(PeriodRate(loan), loan.remainingCents, payment, k)
    requires Owed(PeriodRate(loan), loan.remainingCents, payment, m) > 0
    ensures forall n: nat :: n <= m ==> !Answer(loan, Some(payment), n)
    ensures !Bites(PeriodRate(loan), loan.remainingCents, payment, m) ==>
              forall n: nat :: !Answer(loan, Some(payment), n)
  {
    forall n: nat | n <= m ensures Owed(PeriodRate(loan), loan.remainingCents, payment, n) > 0 {
      assert n == m || Bites(PeriodRate(loan), loan.remainingCents, payment, n);
    }
  }

  // ---- what the answer means ----

  // every cent paid goes to the debt or to interest
  lemma {:induction false} PaymentsAddUp(rate: real, remaining: int, payment: int, k: nat)
    ensures Owed(rate, remaining, payment, k) == remaining + Charged(rate, remaining, payment, k) - payment * k
  {
    if k > 0 {
      PaymentsAddUp(rate, remaining, payment, k - 1);
      assert payment * k == payment * (k - 1) + payment;
    }
  }

  // rounding keeps order
  lemma RoundKeepsOrder(x: real, y: real)
    requires x <= y
    ensures Round(x) <= Round(y)
  {
    assert (x + 0.5).Floor as real <= x + 0.5;
    assert (y + 0.5) < (y + 0.5).Floor as real + 1.0;
  }

  lemma InterestOrder(rate: real, less: int, more: int)
    requires rate >= 0.0 && less <= more
    ensures Interest(rate, less) <= Interest(rate, more)
  {
    assert (more - less) as real * rate >= 0.0;
    RoundKeepsOrder(less as real * rate, more as real * rate);
  }

  // at a rate of at least -100% a period, owing less never leaves more owed
  lemma CarryOrder(rate: real, less: int, more: int)
    requires rate >= -1.0 && less <= more
    ensures less + Interest(rate, less) <= more + Interest(rate, more)
  {
    var gap := more - less;
    assert gap as real * (rate + 1.0) >= 0.0;
    assert more as real * rate == less as real * rate + gap as real * rate;
    RoundKeepsOrder(less as real * rate - gap as real, more as real * rate);
    assert Round(less as real * rate - gap as real) == Interest(rate, less) - gap;
  }

  lemma CreditEarnsNothing(rate: real, balance: int)
    requires rate <= 0.0 && balance > 0
    ensures Interest(rate, balance) <= 0
  {
    assert balance as real * rate <= 0.0;
    RoundKeepsOrder(balance as real * rate, 0.0);
  }

  // a payment that beats the first period's interest beats every later one while a debt is left
  lemma {:induction false} BitesOnceBitesAlways(rate: real, remaining: int, payment: int, k: nat)
    requires payment > 0 && payment > Interest(rate, remaining)
    requires forall j: nat :: j <= k ==> Owed(rate, remaining, payment, j) > 0
    ensures Bites(rate, remaining, payment, k)
    ensures Owed(rate, remaining, payment, k) <= remaining
  {
    if k > 0 {
      BitesOnceBitesAlways(rate, remaining, payment, k - 1);
      var owed := Owed(rate, remaining, payment, k);
      if rate >= 0.0 {
        InterestOrder(rate, owed, remaining);
      } else {
        CreditEarnsNothing(rate, owed);
      }
    }
  }

  /**
   "Never pays off" is decided by the first period alone: a debt that payments larger than
   the first interest are made on loses at least a cent a period, whatever the rate.
   */
  lemma {:induction false} DebtFalls(rate: real, remaining: int, payment: int, k: nat)
    requires payment > 0 && payment > Interest(rate, remaining)
    requires forall j: nat :: j < k ==> Owed(rate, remaining, payment, j) > 0
    ensures Owed(rate, remaining, payment, k) <= remaining - k
  {
    if k > 0 {
      DebtFalls(rate, remaining, payment, k - 1);
      BitesOnceBitesAlways(rate, remaining, payment, k - 1);
    }
  }

  ghost predicate GoneBy(rate: real, remaining: int, payment: int, limit: nat) {
    exists n: nat :: n <= limit && Owed(rate, remaining, payment, n) <= 0
  }

  lemma {:induction false} FirstGone(rate: real, remaining: int, payment: int, n: nat) returns (first: nat)
    requires Owed(rate, remaining, payment, n) <= 0
    ensures first <= n && Owed(rate, remaining, payment, first) <= 0
    ensures forall j: nat :: j < first ==> Owed(rate, remaining, payment, j) > 0
  {
    if j: nat :| j < n && Owed(rate, remaining, payment, j) <= 0 {
      first := FirstGone(rate, remaining, payment, j);
    } else {
      first := n;
    }
  }

  /** When there is an answer at all: the first interest is beaten, and the limit leaves enough periods. */
  lemma AnsweredExactlyWhen(loan: Loan, payment: int)
    requires Asked(loan, Some(payment))
    ensures (exists n: nat :: Answer(loan, Some(payment), n)) <==>
              && payment > Interest(PeriodRate(loan), loan.remainingCents)
              && GoneBy(PeriodRate(loan), loan.remainingCents, payment, StepLimit(loan.perYear))
  {
    var rate, owed := PeriodRate(loan), loan.remainingCents;
    if n: nat :| Answer(loan, Some(payment), n) {
      assert Bites(rate, owed, payment, 0);
    }
    if payment > Interest(rate, owed) && GoneBy(rate, owed, payment, StepLimit(loan.perYear)) {
      var n: nat :| n <= StepLimit(loan.perYear) && Owed(rate, owed, payment, n) <= 0;
      var first := FirstGone(rate, owed, payment, n);
      forall k: nat | k < first ensures Bites(rate, owed, payment, k) {
        BitesOnceBitesAlways(rate, owed, payment, k);
      }
      assert Answer(loan, Some(payment), first);
    }
  }

  lemma OneAnswer(loan: Loan, payment: int, n: nat, m: nat)
    requires Answer(loan, Some(payment), n) && Answer(loan, Some(payment), m)
    ensures n == m
  {
    assert m <= n || Bites(PeriodRate(loan), loan.remainingCents, payment, n);
    assert n <= m || Bites(PeriodRate(loan), loan.remainingCents, payment, m);
  }

  // ---- two runs side by side ----

  ghost predicate NoneToSpare(rate: real, remaining: int, payment: int, n: nat) {
    payment * n < remaining + Charged(rate, remaining, payment, n) + payment
  }

  lemma PaymentsCover(rate: real, remaining: int, payment: int, n: nat)
    requires remaining > 0 && PaidAfter(rate, remaining, payment, n)
    ensures n > 0
    ensures remaining + Charged(rate, remaining, payment, n) <= payment * n
    ensures NoneToSpare(rate, remaining, payment, n) <==>
              Owed(rate, remaining, payment, n - 1) + Interest(rate, Owed(rate, remaining, payment, n - 1)) > 0
  {
    PaymentsAddUp(rate, remaining, payment, n);
  }

  // interest of at least -50% never rounds a debt away on its own
  lemma DebtSurvivesInterest(rate: real, balance: int)
    requires rate >= -0.5 && balance > 0
    ensures balance + Interest(rate, balance) > 0
  {
    assert balance as real * (rate + 0.5) >= 0.0;
    assert balance as real * rate >= -0.5 * balance as real;
    RoundKeepsOrder(-0.5 * balance as real, balance as real * rate);
  }

  /**
   The payments cover debt and interest. One fewer would not, for every debt and payment,
   exactly at the period rates from -50% up.
   */
  lemma LastPaymentIsNeeded(rate: real)
    ensures forall remaining: int, payment: int, n: nat ::
      remaining > 0 && PaidAfter(rate, remaining, payment, n) ==>
        remaining + Charged(rate, remaining, payment, n) <= payment * n
    ensures rate >= -0.5 <==>
      forall remaining: int, payment: int, n: nat ::
        remaining > 0 && PaidAfter(rate, remaining, payment, n) ==> NoneToSpare(rate, remaining, payment, n)
  {
    forall remaining: int, payment: int, n: nat | remaining > 0 && PaidAfter(rate, remaining, payment, n)
      ensures remaining + Charged(rate, remaining, payment, n) <= payment * n
      ensures rate >= -0.5 ==> NoneToSpare(rate, remaining, payment, n)
    {
      PaymentsCover(rate, remaining, payment, n);
      assert Bites(rate, remaining, payment, n - 1);
      if rate >= -0.5 {
        DebtSurvivesInterest(rate, Owed(rate, remaining, payment, n - 1));
      }
    }
    if rate < -0.5 {
      assert Owed(rate, 1, 1, 0) == 1;
      assert Interest(rate, 1) <= -1;
      assert Bites(rate, 1, 1, 0);
      assert PaidAfter(rate, 1, 1, 1);
      PaymentsCover(rate, 1, 1, 1);
      assert !NoneToSpare(rate, 1, 1, 1);
    }
  }

  lemma {:induction false} LargerPaymentOwesLess(rate: real, remaining: int, small: int, large: int, k: nat)
    requires rate >= -1.0 && small <= large
    ensures Owed(rate, remaining, large, k) <= Owed(rate, remaining, small, k)
  {
    if k > 0 {
      LargerPaymentOwesLess(rate, remaining, small, large, k - 1);
      CarryOrder(rate, Owed(rate, remaining, large, k - 1), Owed(rate, remaining, small, k - 1));
    }
  }

  lemma {:induction false} LargerPaymentIsChargedLess(rate: real, remaining: int, small: int, large: int, k: nat)
    requires rate >= 0.0 && small <= large
    ensures Charged(rate, remaining, large, k) <= Charged(rate, remaining, small, k)
  {
    if k > 0 {
      LargerPaymentIsChargedLess(rate, remaining, small, large, k - 1);
      LargerPaymentOwesLess(rate, remaining, small, large, k - 1);
      InterestOrder(rate, Owed(rate, remaining, large, k - 1), Owed(rate, remaining, small, k - 1));
    }
  }

  lemma {:induction false} LongerIsChargedMore(rate: real, remaining: int, payment: int, n: nat, m: nat)
    requires rate >= 0.0 && n <= m
    requires forall k: nat :: k < m ==> Bites(rate, remaining, payment, k)
    ensures Charged(rate, remaining, payment, n) <= Charged(rate, remaining, payment, m)
  {
    if n < m {
      LongerIsChargedMore(rate, remaining, payment, n, m - 1);
      assert Bites(rate, remaining, payment, m - 1);
      InterestOrder(rate, 0, Owed(rate, remaining, payment, m - 1));
    }
  }

  lemma MonthsOrder(perYear: real, n: nat, m: nat)
    requires perYear > 0.0 && n <= m
    ensures Months(perYear, n) <= Months(perYear, m)
  {
    var x, y := (n * 12) as real, (m * 12) as real;
    assert x / perYear <= y / perYear;
    RoundKeepsOrder(x / perYear, y / perYear);
  }

  /**
   A larger payment on a loan whose interest is not negative still pays it off: in no more
   payments and months, no later, and for no more interest.
   */
  lemma LargerPaymentIsNeverWorse(loan: Loan, small: int, large: int, thisMonth: int, n: nat) returns (m: nat)
    requires Answer(loan, Some(small), n) && small <= large
    requires loan.interestPctYear.Some? ==> loan.interestPctYear.value >= 0.0
    ensures m <= n && Answer(loan, Some(large), m)
    ensures ProjectionFor(loan, large, thisMonth, m).months <= ProjectionFor(loan, small, thisMonth, n).months
    ensures ProjectionFor(loan, large, thisMonth, m).endMonth <= ProjectionFor(loan, small, thisMonth, n).endMonth
    ensures ProjectionFor(loan, large, thisMonth, m).totalInterestCents
         <= ProjectionFor(loan, small, thisMonth, n).totalInterestCents
  {
    var rate, owed := PeriodRate(loan), loan.remainingCents;
    LargerPaymentOwesLess(rate, owed, small, large, n);
    m := FirstGone(rate, owed, large, n);
    assert Bites(rate, owed, small, 0);
    forall k: nat | k < m ensures Bites(rate, owed, large, k) {
      BitesOnceBitesAlways(rate, owed, large, k);
    }
    LargerPaymentIsChargedLess(rate, owed, small, large, m);
    LongerIsChargedMore(rate, owed, small, m, n);
    MonthsOrder(loan.perYear, m, n);
  }

  // ---- told from the loan ----

  /** An answer is a number of payments, at most 2600 and none begun after 50 years, that pays the debt off
      at the year's rate spread over its periods. */
  lemma AnswerTells(loan: Loan, payment: Option<int>, n: nat)
    ensures Answer(loan, payment, n) <==>
      && payment.Some? && payment.value > 0 && loan.remainingCents > 0 && loan.perYear > 0.0
      && n <= 2600 && n as real < 50.0 * loan.perYear + 1.0
      && (if loan.interestPctYear.None? then PaidAfter(0.0, loan.remainingCents, payment.value, n)
          else PaidAfter(loan.interestPctYear.value / (100.0 * loan.perYear), loan.remainingCents, payment.value, n))
  {
    if loan.perYear > 0.0 && loan.interestPctYear.Some? {
      SpreadRate(loan.interestPctYear.value, loan.perYear);
    }
  }

  lemma SpreadRate(pct: real, perYear: real)
    requires perYear > 0.0
    ensures pct / 100.0 / perYear == pct / (100.0 * perYear)
  {
    var rate := pct / 100.0 / perYear;
    assert rate * perYear == pct / 100.0;
    assert rate * (100.0 * perYear) == rate * perYear * 100.0 == pct;
  }

  /** The months reported are the payments' share of years in months, rounded, and never none; the final
      month is that many after this one. */
  lemma ProjectionTells(loan: Loan, payment: int, thisMonth: int, n: nat)
    requires loan.perYear > 0.0
    ensures var p, exact := ProjectionFor(loan, payment, thisMonth, n), 12.0 * n as real / loan.perYear;
      && p.endMonth == thisMonth + p.months && p.months >= 1
      && p.months as real > exact - 0.5 && (p.months > 1 ==> p.months as real <= exact + 0.5)
  {
    assert (n * 12) as real == 12.0 * n as real;
  }
}
