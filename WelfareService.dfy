/** The server-side income recognition: a household's monthly income plus
    the monthly income its assets are deemed to yield, compared with the
    median income for its size and graded Green (likely eligible), Yellow
    (borderline) or Red (over the line). */
module WelfareService {
  import opened Common

  /** Assets up to this amount yield no deemed income. */
  const BASIC_PROPERTY_EXEMPTION: int := 5_400_000
  /** Yearly rate at which the assets above the exemption count as income. */
  const ASSET_CONVERSION_RATE: real := 0.04

  datatype WelfareInput = WelfareInput(householdSize: int, monthlyIncome: int, totalAssets: int)

  datatype Grade = Green | Yellow | Red

  /** The report, without its date stamp (the date is read from the clock). */
  datatype Recognition = Recognition(recognizedIncome: int, ratio: real, grade: Grade, standard: int)

  /** The median monthly income table, for households of one to four. */
  function MiddleIncome(householdSize: int): (r: Option<int>)
    ensures r.Some? <==> 1 <= householdSize <= 4
    ensures r.Some? ==> 2_000_000 <= r.value <= 5_400_000
  {
    if householdSize == 1 then Some(2_000_000)
    else if householdSize == 2 then Some(3_400_000)
    else if householdSize == 3 then Some(4_400_000)
    else if householdSize == 4 then Some(5_400_000)
    else None
  }

  /** The table value, or 0 for a size the table does not list. */
  function Standard(householdSize: int): (r: int)
    ensures r == 0 <==> !(1 <= householdSize <= 4)
    ensures r >= 0
  {
    OrElse(MiddleIncome(householdSize), 0)
  }

  /** Monthly income deemed to come from the assets above the exemption. */
  function ConvertedAssetIncome(totalAssets: int): (r: real)
    ensures r >= 0.0
    ensures r == 0.0 <==> totalAssets <= BASIC_PROPERTY_EXEMPTION
  {
    MaxInt(0, totalAssets - BASIC_PROPERTY_EXEMPTION) as real * ASSET_CONVERSION_RATE / 12.0
  }

  function RecognizedIncome(input: WelfareInput): real {
    input.monthlyIncome as real + ConvertedAssetIncome(input.totalAssets)
  }

  /** Recognised income as a percentage of the standard; 0 without one. */
  function Ratio(recognized: real, standard: int): real {
    if standard != 0 then recognized / standard as real * 100.0 else 0.0
  }

  function GradeOf(ratio: real): Grade {
    if ratio <= 80.0 then Green
    else if ratio <= 100.0 then Yellow
    else Red
  }

  /** `calculate_income_recognition`: the grade is taken from the exact
      ratio, the report shows it rounded to two places. */
  function CalculateIncomeRecognition(input: WelfareInput): (r: Recognition)
    ensures r.standard == Standard(input.householdSize)
    ensures r.recognizedIncome == PyRound(RecognizedIncome(input))
    ensures r.grade == GradeOf(Ratio(RecognizedIncome(input), r.standard))
    ensures -0.005 <= r.ratio - Ratio(RecognizedIncome(input), r.standard) <= 0.005
  {
    var recognized := RecognizedIncome(input);
    var standard := Standard(input.householdSize);
    var ratio := Ratio(recognized, standard);
    Recognition(PyRound(recognized), PyRound2(ratio), GradeOf(ratio), standard)
  }

  /** The three grades split the ratios at 80 and 100. */
  lemma GradeBands(ratio: real)
    ensures GradeOf(ratio) == Green <==> ratio <= 80.0
    ensures GradeOf(ratio) == Yellow <==> 80.0 < ratio <= 100.0
    ensures GradeOf(ratio) == Red <==> ratio > 100.0
  {
  }

  /** Without a standard (a household size outside 1-4) the ratio is 0 and
      the grade Green, whatever the income. */
  lemma NoStandardIsGreen(input: WelfareInput)
    requires !(1 <= input.householdSize <= 4)
    ensures CalculateIncomeRecognition(input).standard == 0
    ensures CalculateIncomeRecognition(input).ratio == 0.0
    ensures CalculateIncomeRecognition(input).grade == Green
  {
    PyRound2OfZero();
  }

  /** Assets at or below the exemption leave the income as it is. */
  lemma ExemptAssetsAddNothing(input: WelfareInput)
    requires input.totalAssets <= BASIC_PROPERTY_EXEMPTION
    ensures RecognizedIncome(input) == input.monthlyIncome as real
    ensures CalculateIncomeRecognition(input).recognizedIncome == input.monthlyIncome
  {
    assert PyRound(input.monthlyIncome as real) == input.monthlyIncome;
  }

  function GradeRank(g: Grade): nat {
    match g
    case Green => 0
    case Yellow => 1
    case Red => 2
  }

  /** More income or more assets never improve the grade. */
  lemma GradeMonotone(a: WelfareInput, b: WelfareInput)
    requires a.householdSize == b.householdSize
    requires a.monthlyIncome <= b.monthlyIncome && a.totalAssets <= b.totalAssets
    ensures GradeRank(CalculateIncomeRecognition(a).grade) <= GradeRank(CalculateIncomeRecognition(b).grade)
  {
    var s := Standard(a.householdSize);
    assert ConvertedAssetIncome(a.totalAssets) <= ConvertedAssetIncome(b.totalAssets);
    var ra, rb := RecognizedIncome(a), RecognizedIncome(b);
    assert ra <= rb;
    if s != 0 {
      RatioMonotone(ra, rb, s);
    }
  }

  lemma RatioMonotone(x: real, y: real, s: int)
    requires x <= y && s > 0
    ensures Ratio(x, s) <= Ratio(y, s)
  {
    var d := s as real;
    assert x / d <= y / d;
  }
}
