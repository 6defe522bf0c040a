/** The client's asset form: the record every screen shares, the two
    updaters the form uses (`set` for a top-level figure, `setSv` for a
    field of the savings product) and the conversion of each number input. */
module AssetInput {
  import opened Common

  datatype SavingsInfo = SavingsInfo(
    productName: string,
    principal: real,
    annualRate: real,              // a fraction: 0.035 is 3.5 %
    monthsRemaining: real,
    earlyTerminatePenaltyRate: real)

  datatype LoanInfo = LoanInfo(
    lender: string,
    amount: real,
    annualRate: real,
    remainingMonths: real,
    purpose: Option<string>)

  datatype AssetFormData = AssetFormData(
    monthlyIncome: real,
    householdSize: real,
    realEstate: real,
    deposits: real,
    otherAssets: real,
    savings: SavingsInfo,
    loans: seq<LoanInfo>)

  /** The top-level numeric fields the form edits through `set`. */
  datatype Field = MonthlyIncome | HouseholdSize | RealEstate | Deposits | OtherAssets

  /** The numeric fields of the savings product the form edits through `setSv`. */
  datatype SavingsField = Principal | AnnualRate | MonthsRemaining | PenaltyRate

  function Get(d: AssetFormData, f: Field): real {
    match f
    case MonthlyIncome => d.monthlyIncome
    case HouseholdSize => d.householdSize
    case RealEstate => d.realEstate
    case Deposits => d.deposits
    case OtherAssets => d.otherAssets
  }

  function GetSv(s: SavingsInfo, f: SavingsField): real {
    match f
    case Principal => s.principal
    case AnnualRate => s.annualRate
    case MonthsRemaining => s.monthsRemaining
    case PenaltyRate => s.earlyTerminatePenaltyRate
  }

  /** `set(key, v)`: `{ ...value, [key]: v }` */
  function Set(d: AssetFormData, f: Field, v: real): (r: AssetFormData)
    ensures Get(r, f) == v
    ensures forall g :: g != f ==> Get(r, g) == Get(d, g)
    ensures r.savings == d.savings && r.loans == d.loans
  {
    match f
    case MonthlyIncome => d.(monthlyIncome := v)
    case HouseholdSize => d.(householdSize := v)
    case RealEstate => d.(realEstate := v)
    case Deposits => d.(deposits := v)
    case OtherAssets => d.(otherAssets := v)
  }

  /** `setSv(key, v)`: `{ ...value, savings: { ...value.savings, [key]: v } }` */
  function SetSv(d: AssetFormData, f: SavingsField, v: real): (r: AssetFormData)
    ensures GetSv(r.savings, f) == v
    ensures forall g :: g != f ==> GetSv(r.savings, g) == GetSv(d.savings, g)
    ensures r.savings.productName == d.savings.productName
    ensures forall g :: Get(r, g) == Get(d, g)
    ensures r.loans == d.loans
  {
    var s := d.savings;
    var s' := match f
      case Principal => s.(principal := v)
      case AnnualRate => s.(annualRate := v)
      case MonthsRemaining => s.(monthsRemaining := v)
      case PenaltyRate => s.(earlyTerminatePenaltyRate := v);
    d.(savings := s')
  }

  /** `setSv('productName', v)` */
  function SetProductName(d: AssetFormData, name: string): (r: AssetFormData)
    ensures r.savings.productName == name
    ensures forall g :: GetSv(r.savings, g) == GetSv(d.savings, g)
    ensures forall g :: Get(r, g) == Get(d, g)
    ensures r.loans == d.loans
  {
    d.(savings := d.savings.(productName := name))
  }

  /** The sum shown under the asset inputs. */
  function TotalAssets(d: AssetFormData): real {
    d.realEstate + d.deposits + d.otherAssets
  }

  /** What a `type="number"` input reports: an empty box or a number. */
  datatype NumberInput = Blank | Entered(x: real)

  /** `Number(e.target.value || d)` */
  function NumberOr(i: NumberInput, d: real): real {
    if i.Blank? then d else i.x
  }

  /** The form's number inputs, in screen order. */
  datatype Control =
    | IncomeBox | HouseholdBox | RealEstateBox | DepositsBox | OtherAssetsBox
    | MonthsBox | RatePercentBox | PrincipalBox | PenaltyPercentBox

  /** The `value` each input shows for the current record. */
  function Shown(d: AssetFormData, c: Control): real {
    match c
    case IncomeBox => d.monthlyIncome
    case HouseholdBox => d.householdSize
    case RealEstateBox => d.realEstate
    case DepositsBox => d.deposits
    case OtherAssetsBox => d.otherAssets
    case MonthsBox => d.savings.monthsRemaining
    case RatePercentBox => d.savings.annualRate * 100.0
    case PrincipalBox => d.savings.principal
    case PenaltyPercentBox => d.savings.earlyTerminatePenaltyRate * 100.0
  }

  /** The record the input's `onChange` hands to the parent. */
  function OnInput(d: AssetFormData, c: Control, i: NumberInput): AssetFormData {
    match c
    case IncomeBox => Set(d, MonthlyIncome, NumberOr(i, 0.0))
    case HouseholdBox => Set(d, HouseholdSize, Max(1.0, NumberOr(i, 1.0)))
    case RealEstateBox => Set(d, RealEstate, NumberOr(i, 0.0))
    case DepositsBox => Set(d, Deposits, NumberOr(i, 0.0))
    case OtherAssetsBox => Set(d, OtherAssets, NumberOr(i, 0.0))
    case MonthsBox => SetSv(d, MonthsRemaining, NumberOr(i, 0.0))
    case RatePercentBox => SetSv(d, AnnualRate, NumberOr(i, 0.0) / 100.0)
    case PrincipalBox => SetSv(d, Principal, NumberOr(i, 0.0))
    case PenaltyPercentBox => SetSv(d, PenaltyRate, NumberOr(i, 0.0) / 100.0)
  }

  /** Typing a number into a box shows that number back (the percent boxes
      store a fraction and show it times 100); the household box shows at
      least 1; an emptied box shows 0, or 1 for the household box. No other
      box changes. */
  lemma OnInputShownBack(d: AssetFormData, c: Control, i: NumberInput)
    ensures Shown(OnInput(d, c, i), c)
         == (if c == HouseholdBox then Max(1.0, NumberOr(i, 1.0)) else NumberOr(i, 0.0))
    ensures forall c' :: c' != c ==> Shown(OnInput(d, c, i), c') == Shown(d, c')
    ensures OnInput(d, c, i).loans == d.loans
    ensures OnInput(d, c, i).savings.productName == d.savings.productName
  {
    var r := OnInput(d, c, i);
    forall c' | c' != c ensures Shown(r, c') == Shown(d, c') {
      match c {
        case IncomeBox =>
        case HouseholdBox =>
        case RealEstateBox =>
        case DepositsBox =>
        case OtherAssetsBox =>
        case MonthsBox =>
        case RatePercentBox =>
        case PrincipalBox =>
        case PenaltyPercentBox =>
      }
    }
  }

  /** Household size is never below 1 after an edit of the household box. */
  lemma HouseholdInputAtLeastOne(d: AssetFormData, i: NumberInput)
    ensures OnInput(d, HouseholdBox, i).householdSize >= 1.0
    ensures i.Blank? ==> OnInput(d, HouseholdBox, i).householdSize == 1.0
  {
  }

  // ---------------------------------------------------------------------
  // The record as the dashboard pages receive it
  // ---------------------------------------------------------------------

  /** A savings product as a dashboard page receives it: restored from the
      browser's storage or from an older client, any figure may be missing
      (`None`); a missing name reads as the empty one. */
  datatype StoredSavings = StoredSavings(
    productName: string,
    principal: Option<real>,
    annualRate: Option<real>,
    monthsRemaining: Option<real>,
    earlyTerminatePenaltyRate: Option<real>)

  /** A form record as a dashboard page receives it. `loanAmounts` is the
      loan list (only the amounts are read), `None` when it is missing or is
      not a list. */
  datatype StoredForm = StoredForm(
    monthlyIncome: Option<real>,
    householdSize: Option<real>,
    realEstate: Option<real>,
    deposits: Option<real>,
    otherAssets: Option<real>,
    savings: Option<StoredSavings>,
    loanAmounts: Option<seq<Option<real>>>)

  /** A complete record seen through the pages' eyes: nothing missing. */
  function Stored(d: AssetFormData): (f: StoredForm)
    ensures f.savings.Some? && f.loanAmounts.Some? && |f.loanAmounts.value| == |d.loans|
  {
    var sv := d.savings;
    StoredForm(Some(d.monthlyIncome), Some(d.householdSize), Some(d.realEstate), Some(d.deposits),
      Some(d.otherAssets),
      Some(StoredSavings(sv.productName, Some(sv.principal), Some(sv.annualRate), Some(sv.monthsRemaining),
        Some(sv.earlyTerminatePenaltyRate))),
      Some(seq(|d.loans|, i requires 0 <= i < |d.loans| => Some(d.loans[i].amount))))
  }

  /** `x || 0` and `x ?? 0` on a figure that is missing or a number. */
  function Figure(x: Option<real>): real {
    if x.Some? then x.value else 0.0
  }
}
