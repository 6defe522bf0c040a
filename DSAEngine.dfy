/** The client-side savings switch comparison (DSA screen): a fixed market
    table, the options whose minimum term fits the months left on the
    current product, the best of them by rate, and the net gain of
    terminating early and moving the principal. */
module DSAEngine {
  import opened Common
  import opened AssetInput
  import opened StableSort

  datatype MarketOption = MarketOption(name: string, annualRate: real, minMonths: int)

  const MARKET: seq<MarketOption> := [
    MarketOption("자유적금 A", 0.039, 3),
    MarketOption("특판적금 B", 0.042, 6),
    MarketOption("온라인전용 C", 0.044, 6)
  ]

  /** Interest earned on `principal` at `annualRate` over `months`. */
  function InterestForMonths(principal: real, annualRate: real, months: real): (r: real)
    ensures months == 0.0 || principal == 0.0 || annualRate == 0.0 ==> r == 0.0
    ensures principal >= 0.0 && annualRate >= 0.0 && months >= 0.0 ==> r >= 0.0
  {
    principal * annualRate * (months / 12.0)
  }

  /** The market options whose minimum term fits, in table order. */
  function Viable(monthsRemaining: real): (r: seq<MarketOption>)
    ensures forall m :: m in r <==> m in MARKET && m.minMonths as real <= monthsRemaining
  {
    Filter(MARKET, monthsRemaining)
  }

  function Filter(ms: seq<MarketOption>, monthsRemaining: real): (r: seq<MarketOption>)
    ensures forall m :: m in r <==> m in ms && m.minMonths as real <= monthsRemaining
  {
    if ms == [] then []
    else if ms[0].minMonths as real <= monthsRemaining then [ms[0]] + Filter(ms[1..], monthsRemaining)
    else Filter(ms[1..], monthsRemaining)
  }

  function RateKey(m: MarketOption): seq<real> { [m.annualRate] }

  /** First option of the rate-descending stable sort of the viable
      options, or the first market option when none is viable. */
  function Best(monthsRemaining: real): MarketOption {
    var viable := Viable(monthsRemaining);
    if viable == [] then MARKET[0] else SortDesc(viable, RateKey)[0]
  }

  datatype Comparison = Comparison(
    currentRemainInterest: real,
    penalty: real,
    best: MarketOption,
    bestInterest: real,
    netGain: int,
    gainPct: real)

  /** Everything the screen derives from the current savings product. */
  function Compare(current: SavingsInfo): (c: Comparison)
    ensures c.best == Best(current.monthsRemaining)
    ensures c.currentRemainInterest == InterestForMonths(current.principal, current.annualRate, current.monthsRemaining)
    ensures c.bestInterest == InterestForMonths(current.principal, c.best.annualRate, current.monthsRemaining)
    ensures c.penalty == current.principal * current.earlyTerminatePenaltyRate
    ensures c.netGain == JsRound(c.bestInterest - c.currentRemainInterest - c.penalty)
    ensures 0.0 <= c.gainPct <= 1.0
  {
    var remain := InterestForMonths(current.principal, current.annualRate, current.monthsRemaining);
    var penalty := current.principal * current.earlyTerminatePenaltyRate;
    var best := Best(current.monthsRemaining);
    var bestInterest := InterestForMonths(current.principal, best.annualRate, current.monthsRemaining);
    var netGain := JsRound(bestInterest - remain - penalty);
    var gainPct := Max(0.0, Min(1.0, (netGain as real + penalty) / Max(1.0, remain + penalty)));
    Comparison(remain, penalty, best, bestInterest, netGain, gainPct)
  }

  /** The badge: switching is advised exactly when the net gain is not
      negative. */
  predicate SwitchAdvised(c: Comparison) { c.netGain >= 0 }

  /** Width in percent of the gain bar. */
  function BarWidth(c: Comparison): (w: real)
    requires 0.0 <= c.gainPct <= 1.0
    ensures 10.0 <= w <= 100.0
    ensures c.gainPct >= 0.1 ==> w == c.gainPct * 100.0
  {
    Max(10.0, c.gainPct * 100.0)
  }

  /** The estimate shown for each market option, always in table order. */
  function MarketEstimates(current: SavingsInfo): (r: seq<int>)
    ensures |r| == |MARKET|
    ensures forall i :: 0 <= i < |MARKET| ==>
      r[i] == JsRound(InterestForMonths(current.principal, MARKET[i].annualRate, current.monthsRemaining))
  {
    seq(|MARKET|, i requires 0 <= i < |MARKET| =>
      JsRound(InterestForMonths(current.principal, MARKET[i].annualRate, current.monthsRemaining)))
  }

  /** The best option is viable and has the highest rate among the viable
      options, the earliest in table order among equal rates; with no
      viable option it is the first market option. */
  lemma {:induction false} BestIsHighestViable(months: real)
    ensures Viable(months) == [] ==> Best(months) == MARKET[0]
    ensures Viable(months) != [] ==>
      Best(months) in Viable(months) &&
      (forall m :: m in Viable(months) ==> m.annualRate <= Best(months).annualRate)
  {
    var viable := Viable(months);
    if viable != [] {
      SortDescHead(viable, RateKey);
      FirstMaxIndexIsFirstMax(viable, RateKey);
      var b := Best(months);
      forall m | m in viable ensures m.annualRate <= b.annualRate {
        var j :| 0 <= j < |viable| && viable[j] == m;
        assert !Gt(RateKey(viable[j]), RateKey(b));
      }
    }
  }

  /** With the table as declared: under three months nothing is viable and
      the first option is shown; from three months the 3.9 % option; from
      six months the 4.4 % option. */
  lemma BestByTerm(months: real)
    ensures months < 3.0 ==> Best(months) == MARKET[0]
    ensures 3.0 <= months < 6.0 ==> Best(months) == MARKET[0]
    ensures 6.0 <= months ==> Best(months) == MARKET[2]
  {
    BestIsHighestViable(months);
    ViableByTerm(months);
    if 6.0 <= months {
      assert Best(months) in MARKET && Best(months).annualRate >= MARKET[2].annualRate;
    }
  }

  /** Which options are viable, by months left. */
  lemma ViableByTerm(months: real)
    ensures months < 3.0 ==> Viable(months) == []
    ensures 3.0 <= months < 6.0 ==> Viable(months) == [MARKET[0]]
    ensures 6.0 <= months ==> Viable(months) == MARKET
  {
    var a, b, c := MARKET[0], MARKET[1], MARKET[2];
    assert MARKET[1..] == [b, c] && [b, c][1..] == [c] && [c][1..] == [];
    if 6.0 <= months {
      assert Filter([c], months) == [c];
      assert Filter([b, c], months) == [b, c];
    } else {
      assert Filter([c], months) == [];
      assert Filter([b, c], months) == [];
    }
  }

  /** A higher rate never earns less on the same principal and term. */
  lemma InterestMonotoneInRate(p: real, r1: real, r2: real, months: real)
    requires p >= 0.0 && r1 <= r2 && months >= 0.0
    ensures InterestForMonths(p, r1, months) <= InterestForMonths(p, r2, months)
  {
    var t := months / 12.0;
    assert p * r1 <= p * r2;
    assert (p * r2 - p * r1) * t >= 0.0;
  }

  /** When the best market rate is at least the current rate and there is
      no early-termination penalty, the screen always advises switching. */
  lemma NoPenaltyBetterRateAdvisesSwitch(current: SavingsInfo)
    requires current.principal >= 0.0 && current.monthsRemaining >= 0.0
    requires current.earlyTerminatePenaltyRate == 0.0
    requires current.annualRate <= Best(current.monthsRemaining).annualRate
    ensures SwitchAdvised(Compare(current))
  {
    var c := Compare(current);
    InterestMonotoneInRate(current.principal, current.annualRate, c.best.annualRate, current.monthsRemaining);
    assert c.penalty == 0.0;
    JsRoundMonotone(0.0, c.bestInterest - c.currentRemainInterest - c.penalty);
    JsRoundOfInt(0);
  }
}
