/** The welfare results card: three fixed recommendations whose status
    follows the two eligibility flags, and the per-capita bar. */
module WelfareResults {
  import opened Common
  import opened AssetInput
  import App

  datatype Recommendation = Recommendation(title: string, ok: bool, tag: string)

  /** The three recommendations: basic livelihood security, micro-finance,
      and a prompt to search local programmes. */
  function Recommendations(e: App.Eligibility): (r: seq<Recommendation>)
    ensures |r| == 3
    ensures r[0].ok == e.baseEligible && r[1].ok == e.microFinanceEligible && r[2].ok
    ensures r[0].tag == (if e.baseEligible then "검토 권장" else "기준 초과")
    ensures r[1].tag == (if e.microFinanceEligible then "가능성 높음" else "가능성 낮음")
    ensures r[2].tag == "추가 탐색"
  {
    [Recommendation("기초생활보장(생계·의료·주거·교육) 가능성", e.baseEligible,
       if e.baseEligible then "검토 권장" else "기준 초과"),
     Recommendation("서민금융(햇살론·사잇돌 등)", e.microFinanceEligible,
       if e.microFinanceEligible then "가능성 높음" else "가능성 낮음"),
     Recommendation("맞춤 복지 찾기(지자체·바우처)", true, "추가 탐색")]
  }

  /** `Math.min(1, perCapita / 1_000_000)` */
  function Ratio(ir: App.IncomeRecognition): (r: real)
    ensures r <= 1.0
  {
    Min(1.0, ir.perCapita as real / 1_000_000.0)
  }

  /** The bar's width in percent, never below 12 so it stays visible. */
  function BarWidth(ir: App.IncomeRecognition): (w: real)
    ensures 12.0 <= w <= 100.0
    ensures ir.perCapita >= 120_000 && ir.perCapita <= 1_000_000 ==> w == ir.perCapita as real / 10_000.0
  {
    Max(12.0, Ratio(ir) * 100.0)
  }

  /** For the application's own figures: the first card is recommended
      exactly when the per-capita income is under 700 000, and then the bar
      stays below 70 %; the micro-finance card follows the household total. */
  lemma ResultsFollowRecognition(d: AssetFormData)
    ensures var ir := App.RecognizeIncome(d);
      var r := Recommendations(App.Welfare(ir));
      && (r[0].ok <==> ir.perCapita < 700_000)
      && (r[1].ok <==> ir.total < 2_500_000)
      && (r[0].ok ==> BarWidth(ir) < 70.0)
  {
  }
}
