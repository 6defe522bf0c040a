/** The financial-products summary page: the loan total and its badge,
    the savings product's maturity estimate and whether its details are
    shown. */
module MyDataFinance {
  import opened Common
  import opened AssetInput
  import MyDataAssets
  import FinanceRecommendation

  /** `Math.max(0, savings.monthsRemaining || 0)` */
  function MonthsLeft(s: StoredSavings): (m: real)
    ensures m >= 0.0
    ensures s.monthsRemaining.Some? && s.monthsRemaining.value >= 0.0 ==> m == s.monthsRemaining.value
  {
    Max(0.0, Figure(s.monthsRemaining))
  }

  /** The maturity estimate: the principal grown by simple interest over
      the months left, rounded to the won. */
  function Maturity(s: StoredSavings): int {
    JsRound(Figure(s.principal) * (1.0 + Figure(s.annualRate) * (MonthsLeft(s) / 12.0)))
  }

  /** With no months left, or no rate, the estimate is the principal. */
  lemma MaturityWithoutInterest(s: StoredSavings)
    requires MonthsLeft(s) == 0.0 || Figure(s.annualRate) == 0.0
    ensures Maturity(s) == JsRound(Figure(s.principal))
  {
  }

  /** The client's estimate is the principal plus the simple interest the
      backend's switching analysis computes (which takes the rate in
      percent where the client stores a fraction). */
  lemma MaturityIsPrincipalPlusInterest(s: StoredSavings, months: nat)
    requires MonthsLeft(s) == months as real
    ensures Maturity(s) == JsRound(Figure(s.principal)
      + FinanceRecommendation.SimpleInterest(Figure(s.principal), Figure(s.annualRate) * 100.0, months))
  {
    var p, r := Figure(s.principal), Figure(s.annualRate);
    assert p * (1.0 + r * (months as real / 12.0)) == p + p * (r * 100.0 / 100.0) * (months as real / 12.0);
  }

  /** For a non-negative principal and rate, waiting longer never lowers
      the estimate. */
  lemma MaturityGrowsWithTime(s: StoredSavings, later: StoredSavings)
    requires later == s.(monthsRemaining := later.monthsRemaining)
    requires Figure(s.principal) >= 0.0 && Figure(s.annualRate) >= 0.0
    requires MonthsLeft(s) <= MonthsLeft(later)
    ensures Maturity(s) <= Maturity(later)
  {
    var p, r := Figure(s.principal), Figure(s.annualRate);
    var a, b := MonthsLeft(s) / 12.0, MonthsLeft(later) / 12.0;
    assert r * a <= r * b by { assert r * (b - a) >= 0.0; }
    assert p * (1.0 + r * a) <= p * (1.0 + r * b) by { assert p * (r * b - r * a) >= 0.0; }
    JsRoundMonotone(p * (1.0 + r * a), p * (1.0 + r * b));
  }

  /** The loan card's badge. */
  datatype Badge = Warn | Clear

  datatype Summary = Summary(
    principal: real,
    loanTotal: real,
    loanCount: nat,
    badge: Badge,
    showsDetails: bool,
    maturity: int)

  /** The figures the page shows. It reads the savings record directly, so
      a record without one cannot be shown. */
  function SummaryOf(f: StoredForm): (r: Summary)
    requires f.savings.Some?
    ensures r.badge == Warn <==> r.loanTotal > 0.0
    ensures r.showsDetails <==> f.savings.value.productName != []
    ensures r.loanCount == if f.loanAmounts.Some? then |f.loanAmounts.value| else 0
    ensures r.loanTotal == MyDataAssets.TotalLoanAmount(f.loanAmounts)
  {
    var s := f.savings.value;
    var total := MyDataAssets.TotalLoanAmount(f.loanAmounts);
    Summary(
      Figure(s.principal),
      total,
      if f.loanAmounts.Some? then |f.loanAmounts.value| else 0,
      if total > 0.0 then Warn else Clear,
      s.productName != [],
      Maturity(s))
  }

  /** With no negative amount, the badge warns exactly when some loan has
      an amount outstanding. */
  lemma BadgeMeansDebt(f: StoredForm)
    requires f.savings.Some?
    requires f.loanAmounts.Some? ==> forall i :: 0 <= i < |f.loanAmounts.value| ==> Figure(f.loanAmounts.value[i]) >= 0.0
    ensures SummaryOf(f).badge == Warn <==>
      f.loanAmounts.Some? && exists i :: 0 <= i < |f.loanAmounts.value| && Figure(f.loanAmounts.value[i]) > 0.0
  {
    if f.loanAmounts.Some? {
      MyDataAssets.LoanSumZero(f.loanAmounts.value);
    }
  }
}
