/** The asset-portfolio page: the three portfolio slices and their total,
    the per-capita, liquidity and income-coverage figures, the page's own
    copy of the recognised-income formula, the donut chart's segments, the
    bar widths and the loan total. */
module MyDataAssets {
  import opened Common
  import opened AssetInput
  import App

  // ---------------------------------------------------------------------
  // Slices and their total
  // ---------------------------------------------------------------------

  datatype PortfolioKey = RealEstateKey | DepositsKey | OtherAssetsKey

  datatype Slice = Slice(key: PortfolioKey, title: string, value: real, color: string)

  /** `Math.max(0, data[key] ?? 0)`: a missing or negative figure counts 0. */
  function SafeValue(x: Option<real>): (r: real)
    ensures r >= 0.0
    ensures x.Some? && x.value >= 0.0 ==> r == x.value
    ensures x.None? || x.value <= 0.0 ==> r == 0.0
  {
    Max(0.0, Figure(x))
  }

  /** The slices, in the fixed order real estate, deposits, other assets. */
  function Slices(f: StoredForm): (s: seq<Slice>)
    ensures |s| == 3
    ensures s[0].key == RealEstateKey && s[1].key == DepositsKey && s[2].key == OtherAssetsKey
    ensures s[0].value == SafeValue(f.realEstate) && s[1].value == SafeValue(f.deposits)
      && s[2].value == SafeValue(f.otherAssets)
    ensures forall i :: 0 <= i < |s| ==> s[i].value >= 0.0
  {
    [Slice(RealEstateKey, "부동산", SafeValue(f.realEstate), "#38bdf8"),
     Slice(DepositsKey, "예·적금", SafeValue(f.deposits), "#a78bfa"),
     Slice(OtherAssetsKey, "기타자산", SafeValue(f.otherAssets), "#f97316")]
  }

  /** `slices.reduce((sum, slice) => sum + slice.value, 0)` */
  function Total(s: seq<Slice>): real {
    if s == [] then 0.0 else Total(s[..|s| - 1]) + s[|s| - 1].value
  }

  function TotalAsset(f: StoredForm): real {
    Total(Slices(f))
  }

  /** The total is the sum of the three clamped figures, hence never
      negative, and it is the form's own total when no figure is negative. */
  lemma TotalAssetIsSum(f: StoredForm)
    ensures TotalAsset(f) == SafeValue(f.realEstate) + SafeValue(f.deposits) + SafeValue(f.otherAssets)
    ensures TotalAsset(f) >= 0.0
  {
    var s := Slices(f);
    assert Total(s[..1]) == s[0].value by { assert s[..1][..0] == []; }
    assert Total(s[..2]) == Total(s[..1]) + s[1].value by { assert s[..2][..1] == s[..1]; }
    assert Total(s) == Total(s[..2]) + s[2].value;
  }

  lemma TotalAssetOfForm(d: AssetFormData)
    requires d.realEstate >= 0.0 && d.deposits >= 0.0 && d.otherAssets >= 0.0
    ensures TotalAsset(Stored(d)) == TotalAssets(d)
  {
    TotalAssetIsSum(Stored(d));
  }

  // ---------------------------------------------------------------------
  // Household, liquidity and income coverage
  // ---------------------------------------------------------------------

  /** `data.householdSize || 1`: a missing or zero size reads as 1. */
  function SizeOr1(h: Option<real>): real {
    if h.None? || h.value == 0.0 then 1.0 else h.value
  }

  /** `Math.max(1, data.householdSize || 1)` */
  function HouseholdSize(f: StoredForm): (r: real)
    ensures r >= 1.0
    ensures f.householdSize.Some? && f.householdSize.value >= 1.0 ==> r == f.householdSize.value
  {
    Max(1.0, SizeOr1(f.householdSize))
  }

  function AssetPerCapita(f: StoredForm): real {
    TotalAsset(f) / HouseholdSize(f)
  }

  /** The per-capita figure is a share of the total: never negative and
      never above it. */
  lemma PerCapitaIsAShare(f: StoredForm)
    ensures 0.0 <= AssetPerCapita(f) <= TotalAsset(f)
    ensures AssetPerCapita(f) * HouseholdSize(f) == TotalAsset(f)
  {
    TotalAssetIsSum(f);
    var t, h := TotalAsset(f), HouseholdSize(f);
    assert t / h <= t by {
      assert t / h * h == t;
      assert t / h * h >= t / h * 1.0;
    }
  }

  /** `liquidityRatio` as written: the cash-like figures are read unclamped
      (`data.deposits ?? 0`), while the total is made of clamped slices. */
  function LiquidityRatio(f: StoredForm): real {
    var t := TotalAsset(f);
    if t > 0.0 then Min(1.0, (Figure(f.deposits) + Figure(f.otherAssets)) / t) else 0.0
  }

  /** A negative deposit balance, which the form accepts, gives a negative
      liquidity ratio: 100 000 000 of real estate and -10 000 000 of
      deposits read as -10 % liquid. */
  lemma LiquidityRatioAsWritten()
    ensures var f := StoredForm(None, None, Some(100_000_000.0), Some(-10_000_000.0), Some(0.0), None, None);
      LiquidityRatio(f) == -0.1
  {
    var f := StoredForm(None, None, Some(100_000_000.0), Some(-10_000_000.0), Some(0.0), None, None);
    TotalAssetIsSum(f);
  }

  /** The liquidity ratio over the same clamped figures as the total: the
      share of deposits and other assets in the portfolio. */
  function LiquidityRatioCorrected(f: StoredForm): (r: real)
    ensures 0.0 <= r <= 1.0
    ensures TotalAsset(f) <= 0.0 ==> r == 0.0
    ensures TotalAsset(f) > 0.0 ==> r * TotalAsset(f) == SafeValue(f.deposits) + SafeValue(f.otherAssets)
  {
    TotalAssetIsSum(f);
    var t := TotalAsset(f);
    var cash := SafeValue(f.deposits) + SafeValue(f.otherAssets);
    if t > 0.0 then
      ShareOfWhole(cash, t);
      Min(1.0, cash / t)
    else 0.0
  }

  /** A part of a positive whole is a share between 0 and 1 of it. */
  lemma ShareOfWhole(part: real, whole: real)
    requires 0.0 <= part <= whole && whole > 0.0
    ensures 0.0 <= part / whole <= 1.0 && part / whole * whole == part
  {
    var q := part / whole;
    assert q * whole == part;
    assert (q - 1.0) * whole == part - whole;
  }

  /** On a record with no negative figure the two readings agree. */
  lemma LiquidityCorrectionAgrees(f: StoredForm)
    requires f.deposits.None? || f.deposits.value >= 0.0
    requires f.otherAssets.None? || f.otherAssets.value >= 0.0
    ensures LiquidityRatio(f) == LiquidityRatioCorrected(f)
  {
  }

  /** `liquidityPercent`, shown in the donut's centre: the ratio as
      written, in whole percent. It never exceeds 100, and on a record with
      no negative cash figure it is not below 0 either. */
  function LiquidityPercent(f: StoredForm): (r: int)
    ensures r <= 100
    ensures (f.deposits.None? || f.deposits.value >= 0.0) && (f.otherAssets.None? || f.otherAssets.value >= 0.0) ==> 0 <= r
  {
    var x := LiquidityRatio(f) * 100.0;
    JsRoundMonotone(x, 100.0);
    JsRoundOfInt(100);
    if (f.deposits.None? || f.deposits.value >= 0.0) && (f.otherAssets.None? || f.otherAssets.value >= 0.0) then
      LiquidityCorrectionAgrees(f);
      JsRoundMonotone(0.0, x);
      JsRoundOfInt(0);
      JsRound(x)
    else JsRound(x)
  }

  /** On the record of `LiquidityRatioAsWritten` the donut shows -10 %. */
  lemma LiquidityPercentAsWritten()
    ensures var f := StoredForm(None, None, Some(100_000_000.0), Some(-10_000_000.0), Some(0.0), None, None);
      LiquidityPercent(f) == -10
  {
    LiquidityRatioAsWritten();
    JsRoundOfInt(-10);
  }

  /** `incomeCoverage`: how many years of income the assets amount to. */
  function IncomeCoverage(f: StoredForm): real {
    var yearly := Max(0.0, Figure(f.monthlyIncome)) * 12.0;
    if yearly > 0.0 then TotalAsset(f) / yearly else 0.0
  }

  /** With a positive income the coverage times a year's income is the
      total; otherwise it is 0. The badge says "stable" exactly when the
      assets reach twelve years of income. */
  lemma IncomeCoverageMeaning(f: StoredForm)
    ensures IncomeCoverage(f) >= 0.0
    ensures f.monthlyIncome.Some? && f.monthlyIncome.value > 0.0 ==>
      && IncomeCoverage(f) * (12.0 * f.monthlyIncome.value) == TotalAsset(f)
      && (IncomeCoverage(f) >= 12.0 <==> TotalAsset(f) >= 144.0 * f.monthlyIncome.value)
    ensures f.monthlyIncome.None? || f.monthlyIncome.value <= 0.0 ==> IncomeCoverage(f) == 0.0
  {
    TotalAssetIsSum(f);
    if f.monthlyIncome.Some? && f.monthlyIncome.value > 0.0 {
      var m := f.monthlyIncome.value;
      assert IncomeCoverage(f) == TotalAsset(f) / (m * 12.0);
      CoverageScale(TotalAsset(f), m);
    }
  }

  /** Years of income: `t / (12 m)` scaled back is `t`, and it reaches 12
      exactly when `t` reaches 144 months of income. */
  lemma CoverageScale(t: real, m: real)
    requires m > 0.0
    ensures t / (m * 12.0) * (12.0 * m) == t
    ensures t / (m * 12.0) >= 12.0 <==> t >= 144.0 * m
  {
    var y := m * 12.0;
    var c := t / y;
    assert c * y == t;
    ScaleOrder(c, 12.0, y);
    assert 12.0 * y == 144.0 * m;
  }

  /** Multiplying by a positive number keeps the order. */
  lemma ScaleOrder(a: real, b: real, y: real)
    requires y > 0.0
    ensures a >= b <==> a * y >= b * y
  {
    if a >= b {
      assert (a - b) * y >= 0.0;
    } else {
      assert (b - a) * y > 0.0;
    }
  }

  // ---------------------------------------------------------------------
  // Recognised income (the page's copy of the formula)
  // ---------------------------------------------------------------------

  /** The page's `incomeRecognition` memo, missing figures read as 0. */
  function Recognition(f: StoredForm): App.IncomeRecognition {
    var total := JsRound(App.RawRecognized(Figure(f.monthlyIncome), Figure(f.realEstate),
      Figure(f.deposits), Figure(f.otherAssets)));
    App.IncomeRecognition(total, JsRound(total as real / Max(1.0, SizeOr1(f.householdSize))))
  }

  /** The record the page's formula effectively reads: missing figures
      are 0 and a missing household size is 1. */
  function FilledIn(f: StoredForm, savings: SavingsInfo): AssetFormData {
    AssetFormData(Figure(f.monthlyIncome), SizeOr1(f.householdSize), Figure(f.realEstate),
      Figure(f.deposits), Figure(f.otherAssets), savings, [])
  }

  /** The page and the application compute the same recognised income:
      on a complete record, and on any record once the missing figures
      are filled in with 0 (and 1 for the household). */
  lemma RecognitionAgreesWithApp(d: AssetFormData, f: StoredForm, savings: SavingsInfo)
    ensures Recognition(Stored(d)) == App.RecognizeIncome(d)
    ensures Recognition(f) == App.RecognizeIncome(FilledIn(f, savings))
  {
    assert Max(1.0, SizeOr1(Some(d.householdSize))) == Max(1.0, d.householdSize);
  }

  /** `recognitionRatio`, the fill of the recognised-income bar. */
  function RecognitionRatio(f: StoredForm): (r: real)
    ensures r <= 1.0
    ensures r * 4_000_000.0 <= Recognition(f).total as real
  {
    Min(1.0, Recognition(f).total as real / 4_000_000.0)
  }

  // ---------------------------------------------------------------------
  // Donut chart
  // ---------------------------------------------------------------------

  /** One arc of the donut, from `start` to `end` as fractions of a turn. */
  datatype Segment = Segment(color: string, start: real, end: real)

  /** The chart's background: a plain disc or a conic gradient of arcs. */
  datatype Donut = Plain | Conic(segments: seq<Segment>)

  /** `slices.filter((slice) => slice.value > 0)` */
  function Positive(s: seq<Slice>): (p: seq<Slice>)
    ensures |p| <= |s|
    ensures forall i :: 0 <= i < |p| ==> p[i].value > 0.0
  {
    if s == [] then []
    else Positive(s[..|s| - 1]) + (if s[|s| - 1].value > 0.0 then [s[|s| - 1]] else [])
  }

  /** The arcs for slices drawn one after another from the top: each
      starts where the slices before it end. */
  function Arcs(p: seq<Slice>, total: real): (g: seq<Segment>)
    requires total > 0.0
    ensures |g| == |p|
  {
    if p == [] then []
    else
      var init := p[..|p| - 1];
      Arcs(init, total) + [Segment(p[|p| - 1].color, Total(init) / total, Total(p) / total)]
  }

  /** `donutStyle` */
  function DonutOf(s: seq<Slice>, total: real): Donut {
    if total <= 0.0 then Plain
    else
      var g := Arcs(Positive(s), total);
      if g == [] then Plain else Conic(g)
  }

  /** The donut built as the page does, advancing a cursor arc by arc. */
  method DonutStyle(s: seq<Slice>, total: real) returns (d: Donut)
    ensures d == DonutOf(s, total)
  {
    if total <= 0.0 {
      return Plain;
    }
    var positive := Positive(s);
    var cursor := 0.0;
    var segments: seq<Segment> := [];
    var i := 0;
    while i < |positive|
      invariant 0 <= i <= |positive|
      invariant cursor == Total(positive[..i]) / total
      invariant segments == Arcs(positive[..i], total)
    {
      var start := cursor;
      var percent := positive[i].value / total;
      cursor := cursor + percent;
      ArcStep(positive, i, total);
      segments := segments + [Segment(positive[i].color, start, cursor)];
      i := i + 1;
    }
    assert positive[..i] == positive;
    d := if segments != [] then Conic(segments) else Plain;
  }

  /** One more slice advances the cursor by its share and adds its arc. */
  lemma ArcStep(p: seq<Slice>, i: nat, total: real)
    requires i < |p| && total > 0.0
    ensures Total(p[..i + 1]) / total == Total(p[..i]) / total + p[i].value / total
    ensures Arcs(p[..i + 1], total) ==
      Arcs(p[..i], total) + [Segment(p[i].color, Total(p[..i]) / total, Total(p[..i + 1]) / total)]
  {
    var q := p[..i + 1];
    assert q[..|q| - 1] == p[..i];
    assert q[|q| - 1] == p[i];
    DivideSum(Total(p[..i]), p[i].value, total);
  }

  lemma DivideSum(a: real, b: real, t: real)
    requires t > 0.0
    ensures (a + b) / t == a / t + b / t
  {
  }

  /** Arc `k` spans the slices before it up to and including itself. */
  lemma {:induction false} ArcsSpan(p: seq<Slice>, total: real, k: nat)
    requires total > 0.0 && k < |p|
    ensures Arcs(p, total)[k] == Segment(p[k].color, Total(p[..k]) / total, Total(p[..k + 1]) / total)
    decreases |p|
  {
    var init := p[..|p| - 1];
    if k < |p| - 1 {
      ArcsSpan(init, total, k);
      assert init[..k] == p[..k] && init[..k + 1] == p[..k + 1];
    } else {
      assert p[..k + 1] == p;
    }
  }

  /** Dropping the zero slices leaves the total unchanged. */
  lemma {:induction false} PositiveKeepsTotal(s: seq<Slice>)
    requires forall i :: 0 <= i < |s| ==> s[i].value >= 0.0
    ensures Total(Positive(s)) == Total(s)
    decreases |s|
  {
    if s != [] {
      var init := s[..|s| - 1];
      PositiveKeepsTotal(init);
      var last := s[|s| - 1];
      if last.value > 0.0 {
        var p := Positive(init) + [last];
        assert p[..|p| - 1] == Positive(init);
      } else {
        assert Positive(s) == Positive(init);
      }
    }
  }

  /** The positive slices in order: the arcs' colours come from them. */
  lemma PositiveMembers(s: seq<Slice>)
    ensures forall x :: x in Positive(s) ==> x in s
  {
    if s != [] {
      PositiveMembers(s[..|s| - 1]);
    }
  }

  /** Totals grow strictly with a positive slice. */
  lemma TotalsIncrease(p: seq<Slice>, k: nat, total: real)
    requires k < |p| && p[k].value > 0.0 && total > 0.0
    ensures Total(p[..k]) / total < Total(p[..k + 1]) / total
  {
    assert p[..k + 1][..k] == p[..k];
    var a, b := Total(p[..k]), Total(p[..k + 1]);
    assert b == a + p[k].value;
    assert b / total - a / total == p[k].value / total;
  }

  /** Arc `k` of positive slices, with its bounds as fractions of the
      total. */
  lemma ArcBounds(p: seq<Slice>, t: real, k: nat)
    requires t > 0.0 && k < |p|
    requires forall i :: 0 <= i < |p| ==> p[i].value > 0.0
    ensures Arcs(p, t)[k].color == p[k].color
    ensures Arcs(p, t)[k].start == Total(p[..k]) / t
    ensures Arcs(p, t)[k].end == Total(p[..k + 1]) / t
    ensures Arcs(p, t)[k].start < Arcs(p, t)[k].end
  {
    ArcsSpan(p, t, k);
    TotalsIncrease(p, k, t);
  }

  /** Arcs drawn for positive slices whose total is the whole: the first
      starts at the top, each starts where the previous one ends, each has
      positive length and the last closes the circle. */
  lemma ArcsCoverCircle(p: seq<Slice>, t: real)
    requires t > 0.0 && p != [] && Total(p) == t
    requires forall i :: 0 <= i < |p| ==> p[i].value > 0.0
    ensures var g := Arcs(p, t);
      && g[0].start == 0.0
      && g[|g| - 1].end == 1.0
      && (forall k :: 0 <= k < |g| - 1 ==> g[k].end == g[k + 1].start)
      && (forall k :: 0 <= k < |g| ==> g[k].start < g[k].end && g[k].color == p[k].color)
  {
    ArcsEnds(p, t);
    ArcsChain(p, t);
    ArcsPositive(p, t);
  }

  /** The first arc starts at the top and the last closes the circle. */
  lemma ArcsEnds(p: seq<Slice>, t: real)
    requires t > 0.0 && p != [] && Total(p) == t
    requires forall i :: 0 <= i < |p| ==> p[i].value > 0.0
    ensures Arcs(p, t)[0].start == 0.0 && Arcs(p, t)[|p| - 1].end == 1.0
  {
    ArcBounds(p, t, 0);
    assert p[..0] == [];
    ArcBounds(p, t, |p| - 1);
    assert p[..|p|] == p;
    WholeIsOne(t);
  }

  /** Each arc starts where the previous one ends. */
  lemma ArcsChain(p: seq<Slice>, t: real)
    requires t > 0.0
    requires forall i :: 0 <= i < |p| ==> p[i].value > 0.0
    ensures var g := Arcs(p, t); forall k :: 0 <= k < |g| - 1 ==> g[k].end == g[k + 1].start
  {
    var g := Arcs(p, t);
    forall k | 0 <= k < |g| - 1 ensures g[k].end == g[k + 1].start {
      ArcBounds(p, t, k);
      ArcBounds(p, t, k + 1);
    }
  }

  /** Each arc has positive length and its slice's colour. */
  lemma ArcsPositive(p: seq<Slice>, t: real)
    requires t > 0.0
    requires forall i :: 0 <= i < |p| ==> p[i].value > 0.0
    ensures var g := Arcs(p, t); forall k :: 0 <= k < |g| ==> g[k].start < g[k].end && g[k].color == p[k].color
  {
    var g := Arcs(p, t);
    forall k | 0 <= k < |g| ensures g[k].start < g[k].end && g[k].color == p[k].color {
      ArcBounds(p, t, k);
    }
  }

  lemma WholeIsOne(t: real)
    requires t > 0.0
    ensures t / t == 1.0
  {
  }

  /** The page's donut: a plain disc exactly when the portfolio is empty;
      otherwise one arc per non-zero slice, in slice order, covering the
      circle as `ArcsCoverCircle` states. */
  lemma DonutCoversCircle(f: StoredForm)
    ensures var s := Slices(f);
      var t := TotalAsset(f);
      && (t <= 0.0 <==> DonutOf(s, t).Plain?)
      && (t > 0.0 ==>
        && DonutOf(s, t) == Conic(Arcs(Positive(s), t))
        && Positive(s) != []
        && Total(Positive(s)) == t)
  {
    var s := Slices(f);
    var t := TotalAsset(f);
    TotalAssetIsSum(f);
    if t > 0.0 {
      var p := Positive(s);
      PositiveKeepsTotal(s);
      assert p != [] by {
        assert Total(p) == t;
        assert Total([]) == 0.0;
      }
    }
  }

  // ---------------------------------------------------------------------
  // Bars
  // ---------------------------------------------------------------------

  /** The largest slice value. */
  function Largest(s: seq<Slice>): (m: real)
    requires s != []
    ensures forall i :: 0 <= i < |s| ==> s[i].value <= m
    ensures exists i :: 0 <= i < |s| && s[i].value == m
  {
    if |s| == 1 then s[0].value
    else
      var m := Largest(s[1..]);
      assert forall i :: 1 <= i < |s| ==> s[i] == s[1..][i - 1];
      if s[0].value >= m then s[0].value else m
  }

  /** `maxSlice`: the largest slice, or 1 when no slice is positive (so the
      bars never divide by zero). */
  function MaxSlice(s: seq<Slice>): (m: real)
    ensures m > 0.0
    ensures forall i :: 0 <= i < |s| ==> s[i].value <= m || m == 1.0
    ensures (exists i :: 0 <= i < |s| && s[i].value > 0.0) ==>
      (forall i :: 0 <= i < |s| ==> s[i].value <= m) && exists i :: 0 <= i < |s| && s[i].value == m
  {
    if s == [] then 1.0
    else
      var m := Largest(s);
      if m > 0.0 then m else 1.0
  }

  /** A bar's width in percent. */
  function BarWidth(value: real, maxSlice: real): int
    requires maxSlice > 0.0
  {
    JsRound(value / maxSlice * 100.0)
  }

  /** Every bar is between 0 and 100 % wide, and the largest non-zero
      slice fills its bar. */
  lemma BarWidthsInRange(s: seq<Slice>)
    requires forall i :: 0 <= i < |s| ==> s[i].value >= 0.0
    ensures forall i :: 0 <= i < |s| ==> 0 <= BarWidth(s[i].value, MaxSlice(s)) <= 100
    ensures forall i :: 0 <= i < |s| && s[i].value > 0.0 && s[i].value == MaxSlice(s) ==>
      BarWidth(s[i].value, MaxSlice(s)) == 100
  {
    var m := MaxSlice(s);
    forall i | 0 <= i < |s|
      ensures 0 <= BarWidth(s[i].value, m) <= 100
      ensures s[i].value == m ==> BarWidth(s[i].value, m) == 100
    {
      if s[i].value > 0.0 {
        assert exists j :: 0 <= j < |s| && s[j].value > 0.0;
      }
      BarWidthInRange(s[i].value, m);
    }
  }

  lemma BarWidthInRange(v: real, m: real)
    requires 0.0 <= v <= m && m > 0.0
    ensures 0 <= BarWidth(v, m) <= 100
    ensures v == m ==> BarWidth(v, m) == 100
  {
    assert m / m == 1.0;
    var x := v / m * 100.0;
    assert v / m <= 1.0 by { assert v / m * m == v; }
    JsRoundMonotone(0.0, x);
    JsRoundMonotone(x, 100.0);
    JsRoundOfInt(0);
    JsRoundOfInt(100);
  }

  // ---------------------------------------------------------------------
  // Loans
  // ---------------------------------------------------------------------

  /** The sum of the loan amounts, a missing amount counted as 0. */
  function LoanSum(amounts: seq<Option<real>>): real {
    if amounts == [] then 0.0 else LoanSum(amounts[..|amounts| - 1]) + Figure(amounts[|amounts| - 1])
  }

  /** `(data.loans ?? []).reduce((sum, loan) => sum + (loan.amount || 0), 0)` */
  function TotalLoanAmount(loans: Option<seq<Option<real>>>): real {
    if loans.Some? then LoanSum(loans.value) else 0.0
  }

  /** With no negative amount the loan total is 0 exactly when every loan
      is missing its amount or has none outstanding. */
  lemma {:induction false} LoanSumZero(amounts: seq<Option<real>>)
    requires forall i :: 0 <= i < |amounts| ==> Figure(amounts[i]) >= 0.0
    ensures LoanSum(amounts) >= 0.0
    ensures LoanSum(amounts) == 0.0 <==> forall i :: 0 <= i < |amounts| ==> Figure(amounts[i]) == 0.0
    decreases |amounts|
  {
    if amounts != [] {
      var init := amounts[..|amounts| - 1];
      LoanSumZero(init);
      assert forall i :: 0 <= i < |init| ==> init[i] == amounts[i];
    }
  }
}
