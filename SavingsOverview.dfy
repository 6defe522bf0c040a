/** The savings overview panel: the savings product and loans with their
    defaults, the maturity estimate and the average rate in percent. */
module SavingsOverview {
  import opened Common
  import opened AssetInput
  import MyDataFinance

  /** The all-zero product with no name shown when none is stored. */
  const DEFAULT_SAVINGS: StoredSavings := StoredSavings("", Some(0.0), Some(0.0), Some(0.0), Some(0.0))

  /** `data?.savings ?? { … }` */
  function SavingsOf(data: Option<StoredForm>): StoredSavings {
    if data.Some? && data.value.savings.Some? then data.value.savings.value else DEFAULT_SAVINGS
  }

  /** `Array.isArray(data?.loans) ? data.loans : []` */
  function LoansOf(data: Option<StoredForm>): seq<Option<real>> {
    if data.Some? && data.value.loanAmounts.Some? then data.value.loanAmounts.value else []
  }

  datatype Overview = Overview(principal: real, maturity: int, averageRate: real, loanCount: nat)

  function OverviewOf(data: Option<StoredForm>): Overview {
    var s := SavingsOf(data);
    Overview(Figure(s.principal), MyDataFinance.Maturity(s), Figure(s.annualRate) * 100.0, |LoansOf(data)|)
  }

  /** Without stored data, or without a savings product, the panel shows
      zeros; without a loan list it shows no loans. */
  lemma OverviewDefaults(data: Option<StoredForm>)
    ensures data.None? || data.value.savings.None? ==>
      var o := OverviewOf(data);
      o.principal == 0.0 && o.maturity == 0 && o.averageRate == 0.0
    ensures data.None? || data.value.loanAmounts.None? ==> OverviewOf(data).loanCount == 0
  {
    JsRoundOfInt(0);
  }

  /** The panel and the financial-products page agree on the principal
      and the maturity estimate of a stored product. */
  lemma OverviewAgreesWithFinancePage(f: StoredForm)
    requires f.savings.Some?
    ensures OverviewOf(Some(f)).principal == MyDataFinance.SummaryOf(f).principal
    ensures OverviewOf(Some(f)).maturity == MyDataFinance.SummaryOf(f).maturity
    ensures OverviewOf(Some(f)).loanCount == MyDataFinance.SummaryOf(f).loanCount
  {
  }

  /** The average rate is the percentage the form's rate box shows, so a
      rate typed into the form reads back unchanged here. */
  lemma AverageRateIsTypedRate(d: AssetFormData, percent: real)
    ensures OverviewOf(Some(Stored(d))).averageRate == Shown(d, RatePercentBox)
    ensures OverviewOf(Some(Stored(OnInput(d, RatePercentBox, Entered(percent))))).averageRate == percent
  {
  }
}
