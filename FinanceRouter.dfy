/** The savings-recommendation endpoint: validation of the request body
    against its schema (defaults, the blank-to-zero hook on four fields,
    the lower bounds), the call to the recommender, and the bounds the
    response schema places on the score and the confidence. */
module FinanceRouter {
  import opened Common
  import opened PyValues
  import opened FinanceParse
  import FinanceRecommendation

  // ---------------------------------------------------------------------
  // Field coercion
  // ---------------------------------------------------------------------

  /** `none_to_zero`: None and the empty text become 0, anything else is
      left for the field's own validation. */
  function NoneToZero(v: PyValue): (r: PyValue)
    ensures v == PNone || v == PStr("") ==> r == PInt(0)
    ensures v != PNone && v != PStr("") ==> r == v
  {
    if v == PNone || v == PStr("") then PInt(0) else v
  }

  /** A `float` field's coercion: numbers (booleans included) and numeric
      text; None and containers are refused. */
  function CoerceFloat(v: PyValue): (r: Option<real>)
    ensures IsNumber(v) ==> r == Some(AsFloat(v))
    ensures v == PNone || v.PList? || v.PDict? ==> r.None?
  {
    ParseFloat(v)
  }

  /** An `int` field's coercion: integers and booleans as they are, a
      float only when it has no fractional part, integer text read;
      anything else is refused. */
  function CoerceInt(v: PyValue): (r: Option<int>)
    ensures v.PInt? ==> r == Some(v.i)
    ensures v.PFloat? ==> (r.Some? <==> v.f == v.f.Floor as real)
    ensures v.PFloat? && r.Some? ==> r.value as real == v.f
    ensures v == PNone || v.PList? || v.PDict? ==> r.None?
  {
    match v
    case PFloat(f) => if f == f.Floor as real then Some(f.Floor) else None
    case _ => ParseInt(v)
  }

  /** Why a body was refused: the field and the kind of error. */
  datatype Refusal = NotANumber(field: string) | BelowMinimum(field: string) | WrongType(field: string)

  datatype Validated<T> = Valid(value: T) | Invalid(refusal: Refusal)

  predicate HasKey(d: Dict, key: string) {
    exists i :: 0 <= i < |d| && d[i].0 == key
  }

  /** A `float` field with a default and a lower bound of `lo`; the hook
      turns None and the empty text into 0 first when `blankIsZero`. */
  function FloatField(body: Dict, key: string, default: real, lo: real, blankIsZero: bool): (r: Validated<real>)
    ensures !HasKey(body, key) ==> r == Valid(default)
    ensures HasKey(body, key) && r.Valid? ==> r.value >= lo
  {
    if !HasKey(body, key) then Valid(default)
    else
      var v := if blankIsZero then NoneToZero(Get(body, key)) else Get(body, key);
      match CoerceFloat(v)
      case None => Invalid(NotANumber(key))
      case Some(x) => if x < lo then Invalid(BelowMinimum(key)) else Valid(x)
  }

  /** An `int` field with a default and a lower bound of `lo`. */
  function IntField(body: Dict, key: string, default: int, lo: int): (r: Validated<int>)
    ensures !HasKey(body, key) ==> r == Valid(default)
    ensures HasKey(body, key) && r.Valid? ==> r.value >= lo
  {
    if !HasKey(body, key) then Valid(default)
    else
      match CoerceInt(Get(body, key))
      case None => Invalid(NotANumber(key))
      case Some(n) => if n < lo then Invalid(BelowMinimum(key)) else Valid(n)
  }

  /** An optional text field: a default when absent, None for null, the
      text itself, and a refusal for anything else. */
  function TextField(body: Dict, key: string, default: Option<string>): (r: Validated<Option<string>>)
    ensures !HasKey(body, key) ==> r == Valid(default)
  {
    if !HasKey(body, key) then Valid(default)
    else
      match Get(body, key)
      case PNone => Valid(None)
      case PStr(s) => Valid(Some(s))
      case _ => Invalid(WrongType(key))
  }

  /** An optional `float` field with a default of 0 and a lower bound of 0:
      null is kept, as the dict the recommender reads shows it. */
  function OptionalAmount(body: Dict, key: string): (r: Validated<PyValue>)
    ensures !HasKey(body, key) ==> r == Valid(PInt(0))
    ensures r.Valid? ==> r.value == PNone || r.value == PInt(0) || (r.value.PFloat? && r.value.f >= 0.0)
  {
    if !HasKey(body, key) then Valid(PInt(0))
    else if Get(body, key) == PNone then Valid(PNone)
    else
      match CoerceFloat(Get(body, key))
      case None => Invalid(NotANumber(key))
      case Some(x) => if x < 0.0 then Invalid(BelowMinimum(key)) else Valid(PFloat(x))
  }

  /** An optional `int` field with a default of 0 and a lower bound of 0. */
  function OptionalCount(body: Dict, key: string): (r: Validated<PyValue>)
    ensures !HasKey(body, key) ==> r == Valid(PInt(0))
  {
    if !HasKey(body, key) then Valid(PInt(0))
    else if Get(body, key) == PNone then Valid(PNone)
    else
      match CoerceInt(Get(body, key))
      case None => Invalid(NotANumber(key))
      case Some(n) => if n < 0 then Invalid(BelowMinimum(key)) else Valid(PInt(n))
  }

  function OptionalText(body: Dict, key: string): Validated<PyValue> {
    match TextField(body, key, None)
    case Invalid(e) => Invalid(e)
    case Valid(t) => Valid(if t.Some? then PStr(t.value) else PNone)
  }

  // ---------------------------------------------------------------------
  // The schemas
  // ---------------------------------------------------------------------

  const DEFAULT_SAVINGS: FinanceRecommendation.SavingsForm := FinanceRecommendation.SavingsForm(Some(""), 0.0, 0.0, 0, 0.0)

  /** `SavingsSchema`. */
  function ValidateSavings(v: PyValue): (r: Validated<FinanceRecommendation.SavingsForm>)
    ensures r.Valid? ==>
      r.value.principal >= 0.0 && r.value.annualRate >= 0.0 && r.value.monthsRemaining >= 0 && r.value.penalty >= 0.0
  {
    if !v.PDict? then Invalid(WrongType("savings"))
    else
      var d := v.entries;
      match (TextField(d, "productName", Some("")), FloatField(d, "principal", 0.0, 0.0, false),
             FloatField(d, "annualRate", 0.0, 0.0, false), IntField(d, "monthsRemaining", 0, 0),
             FloatField(d, "penalty", 0.0, 0.0, false))
      case (Valid(name), Valid(principal), Valid(rate), Valid(months), Valid(penalty)) =>
        Valid(FinanceRecommendation.SavingsForm(name, principal, rate, months, penalty))
      case (Invalid(e), _, _, _, _) => Invalid(e)
      case (_, Invalid(e), _, _, _) => Invalid(e)
      case (_, _, Invalid(e), _, _) => Invalid(e)
      case (_, _, _, Invalid(e), _) => Invalid(e)
      case (_, _, _, _, Invalid(e)) => Invalid(e)
  }

  /** `LoanDraftSchema`, as the dict the recommender reads. */
  function ValidateLoan(v: PyValue): (r: Validated<PyValue>)
    ensures r.Valid? ==> ValidLoanRecord(r.value)
  {
    if !v.PDict? then Invalid(WrongType("loans"))
    else
      var d := v.entries;
      match (OptionalText(d, "lender"), OptionalAmount(d, "amount"), OptionalAmount(d, "annualRate"),
             OptionalCount(d, "remainingMonths"), OptionalText(d, "purpose"))
      case (Valid(lender), Valid(amount), Valid(rate), Valid(months), Valid(purpose)) =>
        Valid(PDict([("lender", lender), ("amount", amount), ("annualRate", rate),
                     ("remainingMonths", months), ("purpose", purpose)]))
      case (Invalid(e), _, _, _, _) => Invalid(e)
      case (_, Invalid(e), _, _, _) => Invalid(e)
      case (_, _, Invalid(e), _, _) => Invalid(e)
      case (_, _, _, Invalid(e), _) => Invalid(e)
      case (_, _, _, _, Invalid(e)) => Invalid(e)
  }

  /** A validated loan list: every entry a loan record whose amount is
      null, the default 0 or a non-negative number. */
  predicate ValidLoanRecord(v: PyValue) {
    v.PDict? && |v.entries| > 1 && v.entries[1].0 == "amount"
    && Get(v.entries, "amount") == v.entries[1].1
    && var a := v.entries[1].1; a == PNone || a == PInt(0) || (a.PFloat? && a.f >= 0.0)
  }

  /** `Optional[list[LoanDraftSchema]]`: null or absent gives None, a list
      is validated entry by entry, anything else is refused. */
  function ValidateLoans(body: Dict): (r: Validated<PyValue>)
    ensures r.Valid? ==> r.value == PNone || (r.value.PList? && forall i :: 0 <= i < |r.value.items| ==> ValidLoanRecord(r.value.items[i]))
  {
    if !HasKey(body, "loans") || Get(body, "loans") == PNone then Valid(PNone)
    else if !Get(body, "loans").PList? then Invalid(WrongType("loans"))
    else
      match ValidateLoanList(Get(body, "loans").items)
      case Invalid(e) => Invalid(e)
      case Valid(loans) => Valid(PList(loans))
  }

  function ValidateLoanList(items: seq<PyValue>): (r: Validated<seq<PyValue>>)
    ensures r.Valid? ==> |r.value| == |items| && forall i :: 0 <= i < |items| ==> ValidLoanRecord(r.value[i])
  {
    if items == [] then Valid([])
    else
      match ValidateLoanList(items[..|items| - 1])
      case Invalid(e) => Invalid(e)
      case Valid(prev) =>
        match ValidateLoan(items[|items| - 1])
        case Invalid(e) => Invalid(e)
        case Valid(loan) => Valid(prev + [loan])
  }

  /** `AssetRequest`: the validated form the recommender receives. */
  function ValidateRequest(body: Dict): (r: Validated<FinanceRecommendation.FinanceForm>)
  {
    var savings := if HasKey(body, "savings") then ValidateSavings(Get(body, "savings")) else Valid(DEFAULT_SAVINGS);
    match (FloatField(body, "monthlyIncome", 0.0, 0.0, true), IntField(body, "householdSize", 1, 1),
           FloatField(body, "realEstate", 0.0, 0.0, true), FloatField(body, "deposits", 0.0, 0.0, true),
           FloatField(body, "otherAssets", 0.0, 0.0, true))
    case (Valid(income), Valid(household), Valid(realEstate), Valid(deposits), Valid(otherAssets)) =>
      (match (savings, ValidateLoans(body))
       case (Valid(sv), Valid(loans)) =>
         Valid(FinanceRecommendation.FinanceForm(income, household, realEstate, deposits, otherAssets, sv, loans))
       case (Invalid(e), _) => Invalid(e)
       case (_, Invalid(e)) => Invalid(e))
    case (Invalid(e), _, _, _, _) => Invalid(e)
    case (_, Invalid(e), _, _, _) => Invalid(e)
    case (_, _, Invalid(e), _, _) => Invalid(e)
    case (_, _, _, Invalid(e), _) => Invalid(e)
    case (_, _, _, _, Invalid(e)) => Invalid(e)
  }

  /** What validation guarantees about an accepted form. */
  predicate Admissible(f: FinanceRecommendation.FinanceForm) {
    && f.monthlyIncome >= 0.0 && f.householdSize >= 1
    && f.realEstate >= 0.0 && f.deposits >= 0.0 && f.otherAssets >= 0.0
    && f.savings.principal >= 0.0 && f.savings.annualRate >= 0.0
    && f.savings.monthsRemaining >= 0 && f.savings.penalty >= 0.0
    && (f.loans == PNone || (f.loans.PList? && forall i :: 0 <= i < |f.loans.items| ==> ValidLoanRecord(f.loans.items[i])))
  }

  /** Every accepted body is admissible. */
  lemma ValidatedIsAdmissible(body: Dict)
    ensures ValidateRequest(body).Valid? ==> Admissible(ValidateRequest(body).value)
  {
  }

  /** An empty body takes every default: household of one, zero amounts,
      the default savings record and no loans. */
  lemma EmptyBodyDefaults()
    ensures ValidateRequest([]) == Valid(FinanceRecommendation.FinanceForm(0.0, 1, 0.0, 0.0, 0.0, DEFAULT_SAVINGS, PNone))
  {
  }

  /** The hooked fields read null and the empty text as 0, and negative
      amounts are refused. */
  lemma BlankIsZero(key: string, v: PyValue)
    requires key in {"monthlyIncome", "realEstate", "deposits", "otherAssets"}
    ensures v == PNone || v == PStr("") ==> FloatField([(key, v)], key, 0.0, 0.0, true) == Valid(0.0)
    ensures v == PFloat(-1.0) ==> FloatField([(key, v)], key, 0.0, 0.0, true).Invalid?
  {
    assert [(key, v)][0].0 == key;
  }

  /** The household size has no such hook: null is refused. */
  lemma NullHouseholdRefused()
    ensures ValidateRequest([("householdSize", PNone)]).Invalid?
  {
    assert [("householdSize", PNone)][0].0 == "householdSize";
  }

  // ---------------------------------------------------------------------
  // What an admissible form gives the recommender
  // ---------------------------------------------------------------------

  lemma {:induction false} LoanTotalNonNegative(loans: seq<PyValue>)
    requires forall i :: 0 <= i < |loans| ==> ValidLoanRecord(loans[i])
    ensures FinanceRecommendation.LoanTotal(loans) >= 0.0
    decreases |loans|
  {
    if loans != [] {
      var n := |loans| - 1;
      LoanTotalNonNegative(loans[..n]);
      assert FinanceRecommendation.LoanAmount(loans[n]) >= 0.0;
    }
  }

  /** On an admissible form the profile is well formed: the liquidity
      ratio is a share, the loans and the debt ratio are not negative, the
      household is the one given and the penalty is not negative. */
  lemma AdmissibleProfile(f: FinanceRecommendation.FinanceForm)
    requires Admissible(f)
    ensures var p := FinanceRecommendation.ProfileOf(f);
      && 0.0 <= p.liquidityRatio <= 1.0
      && p.totalLoans >= 0.0 && p.debtRatio >= 0.0
      && p.householdSize == f.householdSize
      && p.penaltyAmount >= 0.0
  {
    FinanceRecommendation.LiquidityIsAShare(f);
    FinanceRecommendation.ProfileBounds(f);
    LoanTotalNonNegative(FinanceRecommendation.LoanEntries(f.loans));
    var p := FinanceRecommendation.ProfileOf(f);
    if p.totalAssets > 0.0 {
      assert p.debtRatio == p.totalLoans / p.totalAssets;
    }
    PyRound2Monotone(0.0, f.savings.principal * f.savings.penalty);
    PyRound2OfZero();
  }

  // ---------------------------------------------------------------------
  // The response
  // ---------------------------------------------------------------------

  /** An `Optional[str]` field accepts null or text; no other value is
      turned into text. */
  predicate TextOrNull(v: PyValue) { v == PNone || v.PStr? }

  /** What `SavingRecommendation` accepts of a candidate: a text product
      name, each optional text field null or text, and a score in
      [0, 100]. */
  predicate CandidateInSchema(c: FinanceRecommendation.Candidate) {
    && c.productName.PStr?
    && TextOrNull(c.companyName) && TextOrNull(c.productCode) && TextOrNull(c.description)
    && TextOrNull(c.joinMethod) && TextOrNull(c.joinMember)
    && 0 <= c.matchScore <= 100
  }

  /** What `FinanceSwitchResponse` accepts of a report: the best candidate
      and every alternative are valid recommendations, and the confidence
      is in [0, 1]. */
  predicate ResponseValid(s: Option<FinanceRecommendation.Saving>) {
    s.Some? ==>
      && (s.value.best.Some? ==> CandidateInSchema(s.value.best.value.candidate))
      && (forall a :: a in s.value.alternatives ==> CandidateInSchema(a))
      && 0.0 <= s.value.summary.confidence <= 1.0
  }

  /** The products as fetched, or the message of the exception the fetch
      raised. */
  datatype Products = Fetched(bases: seq<Dict>, opts: seq<Dict>) | FetchFailed(message: string)

  datatype Response =
    | Ok(saving: Option<FinanceRecommendation.Saving>)
    | Unprocessable(refusal: Refusal)
    | ServerError(detail: string)

  const SCHEMA_VIOLATION: string := "response validation failed"

  /** `recommend_finance_products`: a refused body never reaches the
      handler; an exception in the recommender, or a report the response
      schema refuses, becomes status 500 with its message. */
  function Recommend(body: Dict, products: Products): (r: Response)
    ensures ValidateRequest(body).Invalid? <==> r.Unprocessable?
    ensures ValidateRequest(body).Valid? && products.FetchFailed? ==> r == ServerError(products.message)
    ensures ValidateRequest(body).Valid? && products.Fetched?
            && FinanceRecommendation.SwitchingOutcome(ValidateRequest(body).value, products.bases, products.opts).Raised?
            ==> r == ServerError(FinanceRecommendation.SwitchingOutcome(ValidateRequest(body).value, products.bases, products.opts).message)
    ensures r.Ok? ==> ResponseValid(r.saving)
  {
    match ValidateRequest(body)
    case Invalid(e) => Unprocessable(e)
    case Valid(form) =>
      match products
      case FetchFailed(m) => ServerError(m)
      case Fetched(bases, opts) =>
        match FinanceRecommendation.SwitchingOutcome(form, bases, opts)
        case Raised(m) => ServerError(m)
        case Returned(s) => if ResponseValid(s) then Ok(s) else ServerError(SCHEMA_VIOLATION)
  }

  /** A product record as the product API documents it: a text name, and
      the other fields the response passes on null or text. */
  predicate ProductTyped(base: Dict) {
    && Get(base, "fin_prdt_nm").PStr?
    && TextOrNull(Get(base, "kor_co_nm")) && TextOrNull(Get(base, "fin_prdt_cd"))
    && TextOrNull(Get(base, "spcl_cnd")) && TextOrNull(Get(base, "etc_note"))
    && TextOrNull(Get(base, "join_way")) && TextOrNull(Get(base, "join_member"))
  }

  /** Every candidate of such products is a valid recommendation. */
  lemma {:induction false} TypedCandidates(bases: seq<Dict>, index: seq<(PyValue, seq<Dict>)>,
                                           p: FinanceRecommendation.Profile, target: int)
    requires forall b :: b in bases ==> ProductTyped(b)
    ensures forall c :: c in FinanceRecommendation.AllCandidates(bases, index, p, target) ==> CandidateInSchema(c)
    decreases |bases|
  {
    if bases != [] {
      var n := |bases| - 1;
      assert forall b :: b in bases[..n] ==> b in bases;
      TypedCandidates(bases[..n], index, p, target);
      assert bases[n] in bases;
      var here := FinanceRecommendation.ProductCandidates(bases[n], index, p, target);
      forall c | c in here ensures CandidateInSchema(c) {
        assert FinanceRecommendation.FromProduct(c, bases[n]);
      }
    }
  }

  /** An option record as the product API documents it: a text or null
      product code. */
  predicate OptionTyped(opt: Dict) {
    TextOrNull(FinanceRecommendation.Code(opt))
  }

  /** Products of the documented types raise nothing in the product
      loop: their codes have a hash and their joining channels are text
      or null. */
  lemma TypedProductsRunThrough(bases: seq<Dict>, index: seq<(PyValue, seq<Dict>)>,
                                p: FinanceRecommendation.Profile, target: int)
    requires forall b :: b in bases ==> ProductTyped(b)
    ensures FinanceRecommendation.RunError(bases, index, p, target).None?
  {
    forall i | 0 <= i < |bases| ensures FinanceRecommendation.ProductError(bases[i], index, p, target).None? {
      assert bases[i] in bases;
      FinanceRecommendation.ProductErrorCases(bases[i], index, p, target);
    }
  }

  /** With products and options of the documented types the recommender
      raises nothing and its report meets the response schema. */
  lemma SwitchingMeetsSchema(form: FinanceRecommendation.FinanceForm, bases: seq<Dict>, opts: seq<Dict>)
    requires forall b :: b in bases ==> ProductTyped(b)
    requires forall o :: o in opts ==> OptionTyped(o)
    ensures FinanceRecommendation.SwitchingOutcome(form, bases, opts) == FinanceRecommendation.Returned(FinanceRecommendation.Switching(form, bases, opts))
    ensures ResponseValid(FinanceRecommendation.Switching(form, bases, opts))
  {
    if bases != [] && opts != [] {
      var p := FinanceRecommendation.ProfileOf(form);
      var index := FinanceRecommendation.Index(opts);
      assert forall i :: 0 <= i < |opts| ==> opts[i] in opts;
      assert FinanceRecommendation.UnhashableCode(opts).None?;
      TypedProductsRunThrough(bases, index, p, FinanceRecommendation.TargetTerm(p));
      var cands := FinanceRecommendation.AllCandidates(bases, index, p, FinanceRecommendation.TargetTerm(p));
      TypedCandidates(bases, index, p, FinanceRecommendation.TargetTerm(p));
      assert forall i :: 0 <= i < |cands| ==> cands[i] in cands;
      FinanceRecommendation.SwitchingProperties(form, bases, opts);
    }
  }

  /** So with products of the documented types, status 500 comes only
      from the fetch: an accepted body is answered with the recommender's
      report. */
  lemma ServerErrorOnlyFromFetch(body: Dict, bases: seq<Dict>, opts: seq<Dict>)
    requires ValidateRequest(body).Valid?
    requires forall b :: b in bases ==> ProductTyped(b)
    requires forall o :: o in opts ==> OptionTyped(o)
    ensures Recommend(body, Fetched(bases, opts)) == Ok(FinanceRecommendation.Switching(ValidateRequest(body).value, bases, opts))
  {
    SwitchingMeetsSchema(ValidateRequest(body).value, bases, opts);
  }

  /** A product that has a candidate and a truthy joining channel that is
      not text makes the request fail with status 500, wherever it stands
      in the list. */
  lemma JoinWayRaisesServerError(body: Dict, bases: seq<Dict>, opts: seq<Dict>, b: nat)
    requires ValidateRequest(body).Valid? && opts != [] && b < |bases|
    requires var p := FinanceRecommendation.ProfileOf(ValidateRequest(body).value);
      FinanceRecommendation.ProductCandidates(bases[b], FinanceRecommendation.Index(opts), p, FinanceRecommendation.TargetTerm(p)) != []
    requires FinanceRecommendation.StripRaises(Get(bases[b], "join_way"))
    ensures Recommend(body, Fetched(bases, opts)).ServerError?
  {
    var p := FinanceRecommendation.ProfileOf(ValidateRequest(body).value);
    var index, target := FinanceRecommendation.Index(opts), FinanceRecommendation.TargetTerm(p);
    FinanceRecommendation.ProductErrorCases(bases[b], index, p, target);
    assert FinanceRecommendation.RunError(bases, index, p, target).Some?;
  }

  /** An option whose product code is a non-empty list or dictionary makes
      the request fail with status 500 and the `TypeError` message, before
      any product is looked at: grouping the options hashes the code. */
  lemma UnhashableOptionCodeServerError(body: Dict, bases: seq<Dict>, opts: seq<Dict>, n: nat)
    requires ValidateRequest(body).Valid? && bases != [] && n < |opts|
    requires FinanceRecommendation.RaisesAsKey(FinanceRecommendation.Code(opts[n]))
    requires forall i :: 0 <= i < n ==> !FinanceRecommendation.RaisesAsKey(FinanceRecommendation.Code(opts[i]))
    ensures Recommend(body, Fetched(bases, opts))
            == ServerError(FinanceRecommendation.UnhashableError(FinanceRecommendation.Code(opts[n])))
  {
    FinanceRecommendation.FirstUnhashable(opts, n);
  }

  /** So an option code `["A"]` gives status 500 with "unhashable type:
      'list'", whatever the products. */
  lemma ListOptionCode(body: Dict, bases: seq<Dict>, rest: Dict, code: PyValue)
    requires ValidateRequest(body).Valid? && bases != []
    requires code == PStr("A")
    ensures Recommend(body, Fetched(bases, [[("fin_prdt_cd", PList([code]))] + rest]))
            == ServerError("unhashable type: 'list'")
  {
    var opt := [("fin_prdt_cd", PList([code]))] + rest;
    assert FinanceRecommendation.Code(opt) == PList([code]);
    UnhashableOptionCodeServerError(body, bases, [opt], 0);
  }

  /** A product reached with a non-empty list or dictionary as its code
      makes the request fail with status 500 when no earlier product
      raised and the options have codes of the documented types: its
      lookup hashes the code. */
  lemma UnhashableProductCodeServerError(body: Dict, bases: seq<Dict>, opts: seq<Dict>, b: nat)
    requires ValidateRequest(body).Valid? && opts != [] && b < |bases|
    requires forall o :: o in opts ==> OptionTyped(o)
    requires var p := FinanceRecommendation.ProfileOf(ValidateRequest(body).value);
      forall j :: 0 <= j < b ==> FinanceRecommendation.ProductError(bases[j], FinanceRecommendation.Index(opts), p, FinanceRecommendation.TargetTerm(p)).None?
    requires FinanceRecommendation.LookupRaises(bases[b], FinanceRecommendation.ProfileOf(ValidateRequest(body).value))
    ensures Recommend(body, Fetched(bases, opts))
            == ServerError(FinanceRecommendation.UnhashableError(FinanceRecommendation.Code(bases[b])))
  {
    var p := FinanceRecommendation.ProfileOf(ValidateRequest(body).value);
    var index, target := FinanceRecommendation.Index(opts), FinanceRecommendation.TargetTerm(p);
    assert forall i :: 0 <= i < |opts| ==> opts[i] in opts;
    assert FinanceRecommendation.UnhashableCode(opts).None?;
    FinanceRecommendation.ProductErrorCases(bases[b], index, p, target);
    FinanceRecommendation.RaisedAt(bases, index, p, target, b);
  }
}
