/** The client's top-level screen logic: the simplified recognised income
    (소득인정액), the two demo eligibility thresholds, hash navigation, the
    welfare category route and the wizard route that selects a step. */
module App {
  import opened Common
  import opened AssetInput
  import opened Location

  datatype IncomeRecognition = IncomeRecognition(total: int, perCapita: int)
  datatype Eligibility = Eligibility(baseEligible: bool, microFinanceEligible: bool)

  /** Monthly income equivalent before rounding: 70 % of earned income plus
      the monthly conversion of each asset at 4 % (real estate), 2 %
      (deposits) and 3 % (other assets) a year. */
  function RawRecognized(income: real, realEstate: real, deposits: real, otherAssets: real): real {
    income * 0.7 + realEstate * 0.04 / 12.0 + deposits * 0.02 / 12.0 + otherAssets * 0.03 / 12.0
  }

  /** The `incomeRecognition` memo. */
  function RecognizeIncome(d: AssetFormData): (r: IncomeRecognition)
    ensures r.total == JsRound(RawRecognized(d.monthlyIncome, d.realEstate, d.deposits, d.otherAssets))
    ensures r.perCapita == JsRound(r.total as real / Max(1.0, d.householdSize))
  {
    var total := JsRound(RawRecognized(d.monthlyIncome, d.realEstate, d.deposits, d.otherAssets));
    IncomeRecognition(total, JsRound(total as real / Max(1.0, d.householdSize)))
  }

  const BASE_PER_CAPITA_LIMIT: int := 700_000
  const MICRO_FINANCE_LIMIT: int := 2_500_000

  /** The `welfare` memo: two fictional thresholds. */
  function Welfare(ir: IncomeRecognition): (e: Eligibility)
    ensures e.baseEligible <==> ir.perCapita < 700_000
    ensures e.microFinanceEligible <==> ir.total < 2_500_000
  {
    Eligibility(ir.perCapita < BASE_PER_CAPITA_LIMIT, ir.total < MICRO_FINANCE_LIMIT)
  }

  /** The per-capita figure stays within half a won of the total divided by
      the household size (at least 1), so a single-person (or smaller)
      household's figure is the total itself. */
  lemma PerCapitaBounds(d: AssetFormData)
    ensures var ir := RecognizeIncome(d);
      ir.total as real / Max(1.0, d.householdSize) - 0.5 < ir.perCapita as real
      <= ir.total as real / Max(1.0, d.householdSize) + 0.5
    ensures d.householdSize <= 1.0 ==> RecognizeIncome(d).perCapita == RecognizeIncome(d).total
  {
    var ir := RecognizeIncome(d);
    if d.householdSize <= 1.0 {
      assert ir.total as real / Max(1.0, d.householdSize) == ir.total as real;
      JsRoundOfInt(ir.total);
    }
  }

  /** In a household of four or more, qualifying for micro-finance (total
      under 2.5 M) implies qualifying for the basic allowance (per capita
      under 700 k): 2.5 M / 4 rounds to at most 625 000. */
  lemma MicroFinanceImpliesBaseForLargeHouseholds(d: AssetFormData)
    requires d.householdSize >= 4.0
    ensures Welfare(RecognizeIncome(d)).microFinanceEligible ==> Welfare(RecognizeIncome(d)).baseEligible
  {
    var ir := RecognizeIncome(d);
    if ir.total < 2_500_000 {
      var h := Max(1.0, d.householdSize);
      assert h == d.householdSize;
      if ir.total >= 0 {
        assert ir.total as real / h <= ir.total as real / 4.0 by {
          DivideByLarger(ir.total as real, 4.0, h);
        }
      } else {
        assert ir.total as real / h < 0.0 by { NegativeOverPositive(ir.total as real, h); }
      }
    }
  }

  lemma DivideByLarger(x: real, a: real, b: real)
    requires x >= 0.0 && 0.0 < a <= b
    ensures x / b <= x / a
  {
    var q := x / a;
    assert q >= 0.0;
    assert q * b >= q * a == x;
    assert x / b == x / b * b / b;
  }

  lemma NegativeOverPositive(x: real, b: real)
    requires x < 0.0 && b > 0.0
    ensures x / b < 0.0
  {
  }

  /** More income or more assets never lowers the recognised total, so
      raising a figure can only remove micro-finance eligibility, never
      grant it. */
  lemma RecognitionMonotone(d: AssetFormData, e: AssetFormData)
    requires d.monthlyIncome <= e.monthlyIncome && d.realEstate <= e.realEstate
    requires d.deposits <= e.deposits && d.otherAssets <= e.otherAssets
    ensures RecognizeIncome(d).total <= RecognizeIncome(e).total
    ensures Welfare(RecognizeIncome(e)).microFinanceEligible ==> Welfare(RecognizeIncome(d)).microFinanceEligible
  {
    JsRoundMonotone(RawRecognized(d.monthlyIncome, d.realEstate, d.deposits, d.otherAssets),
                    RawRecognized(e.monthlyIncome, e.realEstate, e.deposits, e.otherAssets));
  }

  // ---------------------------------------------------------------------
  // Hash routing
  // ---------------------------------------------------------------------

  /** `navigate(p)`: the hash it writes. */
  function Navigate(p: string): (r: string)
    ensures StartsWith(r, "/")
    ensures StartsWith(p, "/") ==> r == p
    ensures !StartsWith(p, "/") ==> r == "/" + p
  {
    if StartsWith(p, "/") then p else "/" + p
  }

  /** `location.hash.slice(1) || '/'`: the route read back from a hash
      (`""` or `"#..."`). */
  function RouteOfHash(hash: string): (r: string)
    ensures |hash| <= 1 ==> r == "/"
    ensures |hash| > 1 ==> r == hash[1..]
  {
    if |hash| <= 1 then "/" else hash[1..]
  }

  /** The route the hash listener reads after `navigate(p)`: the fragment
      `location.hash = p'` stores, read back after its `#`. */
  function HashRoute(p: string): string {
    RouteOfHash("#" + FragmentEncode(Navigate(p)))
  }

  /** The listener reads back the normalised `p'` itself exactly when every
      character of `p'` is one the fragment keeps; otherwise it reads the
      encoded form. Either way the route starts with `/`, and navigating to
      it again reads back the same route. Navigating twice is the same as
      navigating once. */
  lemma NavigateRoundTrip(p: string)
    ensures HashRoute(p) == Navigate(p) <==> FragmentSafe(Navigate(p))
    ensures StartsWith(HashRoute(p), "/") && FragmentSafe(HashRoute(p))
    ensures HashRoute(HashRoute(p)) == HashRoute(p)
    ensures Navigate(Navigate(p)) == Navigate(p)
  {
    var q := Navigate(p);
    var e := FragmentEncode(q);
    assert q == [q[0]] + q[1..];
    EncodeAppend([q[0]], q[1..]);
    assert FragmentEncode([q[0]]) == "/";
    assert ("#" + e)[1..] == e;
    assert HashRoute(p) == e;
    assert e[..1] == "/";
    assert Navigate(e) == e;
    assert ("#" + FragmentEncode(e))[1..] == e;
  }

  const WELFARE_PREFIX: string := "/welfare/"

  /** The name the category page receives for a `/welfare/` route: the
      rest of the route through `decodeURIComponent`; None where that
      throws. */
  function WelfareCategory(route: string): Option<string>
    requires StartsWith(route, WELFARE_PREFIX)
  {
    DecodeUriComponent(route[|WELFARE_PREFIX|..])
  }

  /** Navigating to a route that starts with a fragment-safe prefix
      reads back that prefix followed by the rest, encoded. */
  lemma HashRouteOfPrefixed(prefix: string, rest: string)
    requires StartsWith(prefix, "/") && FragmentSafe(prefix)
    ensures HashRoute(prefix + rest) == prefix + FragmentEncode(rest)
  {
    var q := prefix + rest;
    assert q[..1] == prefix[..1];
    EncodeAppend(prefix, rest);
    var r := prefix + FragmentEncode(rest);
    assert ("#" + r)[1..] == r;
  }

  /** A button that navigates to `/welfare/<name>` opens the page of that
      very name, although the route carries it percent-encoded, whenever
      the name has no `%` and no tab or newline. */
  lemma WelfareCategoryRoundTrip(name: string)
    requires forall i :: 0 <= i < |name| ==> name[i] != '%' && !IsTabOrNewline(name[i])
    ensures StartsWith(HashRoute(WELFARE_PREFIX + name), WELFARE_PREFIX)
      && WelfareCategory(HashRoute(WELFARE_PREFIX + name)) == Some(name)
  {
    HashRouteOfPrefixed(WELFARE_PREFIX, name);
    var r := WELFARE_PREFIX + FragmentEncode(name);
    assert r[..|WELFARE_PREFIX|] == WELFARE_PREFIX;
    assert r[|WELFARE_PREFIX|..] == FragmentEncode(name);
    DecodeFragment(name);
  }

  /** The category names the welfare hub's buttons navigate to. */
  const HUB_CATEGORIES: seq<string> := ["주거", "일자리", "인권", "평생교육"]

  /** Each category button of the welfare hub opens its own category's
      page. */
  lemma WelfareHubCategories()
    ensures forall name :: name in HUB_CATEGORIES ==>
      StartsWith(HashRoute(WELFARE_PREFIX + name), WELFARE_PREFIX)
      && WelfareCategory(HashRoute(WELFARE_PREFIX + name)) == Some(name)
  {
    forall name | name in HUB_CATEGORIES
      ensures StartsWith(HashRoute(WELFARE_PREFIX + name), WELFARE_PREFIX)
        && WelfareCategory(HashRoute(WELFARE_PREFIX + name)) == Some(name)
    {
      WelfareCategoryRoundTrip(name);
    }
  }

  /** The result of `Number(s)` on a string. */
  datatype JsNumber = Num(x: real) | NaN

  /** `Number(s)` for the strings a route can carry: surrounding white space
      is ignored, the empty string is 0, an unsigned decimal is its value,
      one with a `+` in front the same value and one with a `-` in front the
      negated value, and anything else is NaN. */
  function ParseJsNumber(s: string): (n: JsNumber)
    ensures JsTrim(s) == [] ==> n == Num(0.0)
    ensures AllDigits(JsTrim(s)) ==> n == Num(DigitsValue(JsTrim(s)) as real)
    ensures var t := JsTrim(s);
      t != [] && (t[0] == '+' || t[0] == '-') ==>
        match UnsignedDecimal(t[1..])
        case Some(v) => n == Num(if t[0] == '-' then -v else v)
        case None => n == NaN
  {
    var t := JsTrim(s);
    if t == [] then Num(0.0)
    else if t[0] == '+' || t[0] == '-' then
      match UnsignedDecimal(t[1..])
      case Some(x) => Num(if t[0] == '-' then -x else x)
      case None => NaN
    else if AllDigits(t) then
      DigitsDecimal(t);
      Num(DigitsValue(t) as real)
    else
      match UnsignedDecimal(t)
      case Some(x) => Num(x)
      case None => NaN
  }

  type Step = n: int | 0 <= n <= 2

  const WIZARD_PREFIX: string := "/wizard/"

  /** The step the app holds after rendering `route`: a `/wizard/n` route
      with n one of 0, 1, 2 selects step n; any other route leaves it. */
  function StepAfterRoute(route: string, step: Step): (r: Step)
    ensures !StartsWith(route, WIZARD_PREFIX) ==> r == step
    ensures StartsWith(route, WIZARD_PREFIX) ==>
      match ParseJsNumber(route[|WIZARD_PREFIX|..])
      case Num(x) => r == (if x == 0.0 || x == 1.0 || x == 2.0 then x.Floor else step)
      case NaN => r == step
  {
    if StartsWith(route, WIZARD_PREFIX) then
      match ParseJsNumber(route[|WIZARD_PREFIX|..])
      case Num(x) => if x == 0.0 then 0 else if x == 1.0 then 1 else if x == 2.0 then 2 else step
      case NaN => step
    else step
  }

  /** The wizard buttons navigate to `/wizard/n` for the step they select:
      the route read back selects exactly that step, whatever step was
      shown before. */
  lemma WizardRouteSelectsStep(n: Step, previous: Step)
    ensures StepAfterRoute(HashRoute(WIZARD_PREFIX + ShowNat(n)), previous) == n
  {
    WizardRoute(n);
    StepText(n);
    StepOfTail(ShowNat(n), previous, n as real);
    if n == 0 {
      assert n as real == 0.0;
    } else if n == 1 {
      assert n as real == 1.0;
    } else {
      assert n as real == 2.0;
    }
  }

  /** A wizard route is fragment-safe, so it reads back unchanged. */
  lemma WizardRoute(n: Step)
    ensures HashRoute(WIZARD_PREFIX + ShowNat(n)) == WIZARD_PREFIX + ShowNat(n)
  {
    var route := WIZARD_PREFIX + ShowNat(n);
    assert StartsWith(route, "/") by {
      assert route[..1] == "/";
    }
    assert FragmentSafe(route) by {
      assert route == WIZARD_PREFIX + [DigitChar(n)];
    }
    NavigateRoundTrip(route);
  }

  /** A route typed with a signed step, such as `/wizard/+1` or
      `/wizard/-0`, selects that step too: `Number()` reads the sign, and
      negative zero equals 0. A negative step leaves the step shown. */
  lemma SignedWizardRoute(sign: char, d: nat, previous: Step)
    requires d <= 2 && (sign == '+' || sign == '-')
    ensures StepAfterRoute(WIZARD_PREFIX + [sign, DigitChar(d)], previous)
      == if sign == '-' && d != 0 then previous else d
  {
    var x := if sign == '-' then -(d as real) else d as real;
    assert ParseJsNumber([sign, DigitChar(d)]) == Num(x) by {
      SignedStepText(sign, d);
    }
    StepOfTail([sign, DigitChar(d)], previous, x);
    SignedStep(sign, d, previous);
  }

  /** Which step a signed digit's value selects. */
  lemma SignedStep(sign: char, d: nat, previous: Step)
    requires d <= 2
    ensures var x := if sign == '-' then -(d as real) else d as real;
      (if x == 0.0 then 0 else if x == 1.0 then 1 else if x == 2.0 then 2 else previous)
      == if sign == '-' && d != 0 then previous else d
  {
    var x := if sign == '-' then -(d as real) else d as real;
    if d == 0 {
      assert x == 0.0;
    } else if sign == '-' {
      assert x < 0.0;
    } else if d == 1 {
      assert x == 1.0;
    } else {
      assert x == 2.0;
    }
  }

  /** The step a `/wizard/` route selects, given the number its tail reads
      as. */
  lemma StepOfTail(tail: string, previous: Step, x: real)
    requires ParseJsNumber(tail) == Num(x)
    ensures StepAfterRoute(WIZARD_PREFIX + tail, previous)
      == if x == 0.0 then 0 else if x == 1.0 then 1 else if x == 2.0 then 2 else previous
  {
    var route := WIZARD_PREFIX + tail;
    assert route[..|WIZARD_PREFIX|] == WIZARD_PREFIX;
    assert route[|WIZARD_PREFIX|..] == tail;
  }

  lemma SignedStepText(sign: char, d: nat)
    requires d < 10 && (sign == '+' || sign == '-')
    ensures sign == '+' ==> ParseJsNumber([sign, DigitChar(d)]) == Num(d as real)
    ensures sign == '-' ==> ParseJsNumber([sign, DigitChar(d)]) == Num(-(d as real))
  {
    var t := [sign, DigitChar(d)];
    TrimKeeps(t, IsJsSpace);
    UnsignedDigit(t[1..], d);
  }

  lemma UnsignedDigit(u: string, d: nat)
    requires d < 10 && u == [DigitChar(d)]
    ensures UnsignedDecimal(u) == Some(d as real)
  {
    assert ShowNat(d) == u;
    DigitsValueOfShowNat(d);
  }

  /** A step's digit reads back as the step. */
  lemma StepText(n: Step)
    ensures ParseJsNumber(ShowNat(n)) == Num(n as real)
  {
    var t := ShowNat(n);
    assert t == [DigitChar(n)];
    assert JsTrim(t) == t;
    DigitsValueOfShowNat(n);
  }
}
