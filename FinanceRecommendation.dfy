/** The server-side savings switch recommender: from the user's asset form
    and the savings products of the product API, it ranks every (product,
    term option) pair by a match score, the net gain of switching and the
    rate, and decides whether switching to the best one is advised. */
module FinanceRecommendation {
  import opened Common
  import opened PyValues
  import opened FinanceParse
  import opened StableSort
  import DSAEngine

  /** Term used when the current product has no months left. */
  const DEFAULT_TERM: int := 12

  // ---------------------------------------------------------------------
  // Interest
  // ---------------------------------------------------------------------

  /** Simple interest on `principal` at a yearly percentage over `months`. */
  function SimpleInterest(principal: real, ratePercent: real, months: int): real {
    principal * (ratePercent / 100.0) * (months as real / 12.0)
  }

  /** `_compute_interest`: simple interest rounded to two places; nothing
      when the principal, the rate or the term is not positive. */
  function ComputeInterest(principal: real, ratePercent: real, months: int): (r: real)
    ensures principal <= 0.0 || ratePercent <= 0.0 || months <= 0 ==> r == 0.0
    ensures principal > 0.0 && ratePercent > 0.0 && months > 0 ==>
      -0.005 <= r - SimpleInterest(principal, ratePercent, months) <= 0.005
    ensures r >= 0.0
  {
    if principal <= 0.0 || ratePercent <= 0.0 || months <= 0 then 0.0
    else
      SimpleInterestPositive(principal, ratePercent, months);
      PyRound2(SimpleInterest(principal, ratePercent, months))
  }

  lemma SimpleInterestPositive(principal: real, ratePercent: real, months: int)
    requires principal > 0.0 && ratePercent > 0.0 && months > 0
    ensures SimpleInterest(principal, ratePercent, months) > 0.0
  {
    var a := principal * (ratePercent / 100.0);
    assert a > 0.0;
    assert a * (months as real / 12.0) > 0.0;
  }

  lemma SimpleInterestMonotone(principal: real, r1: real, r2: real, months: int)
    requires principal > 0.0 && r1 <= r2 && months > 0
    ensures SimpleInterest(principal, r1, months) <= SimpleInterest(principal, r2, months)
  {
    var m := months as real / 12.0;
    assert principal * (r1 / 100.0) <= principal * (r2 / 100.0);
    assert principal * (r1 / 100.0) * m <= principal * (r2 / 100.0) * m;
  }

  /** A better rate never earns less interest. */
  lemma InterestMonotoneInRate(principal: real, r1: real, r2: real, months: int)
    requires r1 <= r2
    ensures ComputeInterest(principal, r1, months) <= ComputeInterest(principal, r2, months)
  {
    if principal > 0.0 && r1 > 0.0 && months > 0 {
      SimpleInterestMonotone(principal, r1, r2, months);
      PyRound2Monotone(SimpleInterest(principal, r1, months), SimpleInterest(principal, r2, months));
    }
  }

  /** The server's interest, with the rate in percent, is the client's
      interest (rate as a fraction) to within the rounding to cents. */
  lemma InterestAgreesWithClient(principal: real, rate: real, months: int)
    requires principal > 0.0 && rate > 0.0 && months > 0
    ensures -0.005 <= ComputeInterest(principal, rate * 100.0, months)
                      - DSAEngine.InterestForMonths(principal, rate, months as real) <= 0.005
  {
    assert (rate * 100.0) / 100.0 == rate;
  }

  // ---------------------------------------------------------------------
  // Grouping the term options by product
  // ---------------------------------------------------------------------

  /** The product code of a product or option record. */
  function Code(record: Dict): PyValue { Get(record, "fin_prdt_cd") }

  /** Whether `k` is the same dictionary key as one of `ks`. */
  predicate KeyIn(k: PyValue, ks: seq<PyValue>) {
    exists i :: 0 <= i < |ks| && KeyOf(ks[i]) == KeyOf(k)
  }

  /** The keys `_index_options` inserts: each truthy product code of
      `opts` that is not already a key, in order of first occurrence. A
      key equal to an earlier one (`1` after `True`) keeps the earlier. */
  function Codes(opts: seq<Dict>): (r: seq<PyValue>)
    ensures forall k :: k in r ==> Truthy(k)
  {
    if opts == [] then []
    else
      var prev := Codes(opts[..|opts| - 1]);
      var c := Code(opts[|opts| - 1]);
      if !Truthy(c) || KeyIn(c, prev) then prev else prev + [c]
  }

  /** The options of `opts` whose code is the same key as `k`, in input
      order. */
  function Group(opts: seq<Dict>, k: PyValue): (r: seq<Dict>)
    ensures forall o :: o in r ==> o in opts && KeyOf(Code(o)) == KeyOf(k)
  {
    if opts == [] then []
    else
      var prev := Group(opts[..|opts| - 1], k);
      if KeyOf(Code(opts[|opts| - 1])) == KeyOf(k) then prev + [opts[|opts| - 1]] else prev
  }

  /** The dictionary `_index_options` builds, as its entries in insertion
      order: one entry per key, holding that key's options. */
  function Index(opts: seq<Dict>): (r: seq<(PyValue, seq<Dict>)>)
    ensures |r| == |Codes(opts)|
    ensures forall i :: 0 <= i < |r| ==> r[i] == (Codes(opts)[i], Group(opts, Codes(opts)[i]))
  {
    var ks := Codes(opts);
    seq(|ks|, i requires 0 <= i < |ks| => (ks[i], Group(opts, ks[i])))
  }

  /** `options_by_product.get(code) or []` for a code that has a hash. */
  function Lookup(index: seq<(PyValue, seq<Dict>)>, code: PyValue): seq<Dict> {
    if index == [] then []
    else if KeyOf(index[0].0) == KeyOf(code) then index[0].1
    else Lookup(index[1..], code)
  }

  /** The message of the `TypeError` that hashing a list or a dictionary
      raises. */
  function UnhashableError(v: PyValue): string {
    "unhashable type: '" + TypeName(v) + "'"
  }

  /** A code `_index_options` hashes, because it is truthy, and cannot. */
  predicate RaisesAsKey(code: PyValue) {
    Truthy(code) && !Hashable(code)
  }

  /** The message `_index_options` raises with: that of the first option
      whose code is truthy and has no hash, or None when there is none. */
  function UnhashableCode(opts: seq<Dict>): (r: Option<string>)
    ensures r.None? <==> forall i :: 0 <= i < |opts| ==> !RaisesAsKey(Code(opts[i]))
    ensures r.Some? ==> exists i :: 0 <= i < |opts| && RaisesAsKey(Code(opts[i])) && r.value == UnhashableError(Code(opts[i]))
  {
    if opts == [] then None
    else if RaisesAsKey(Code(opts[0])) then Some(UnhashableError(Code(opts[0])))
    else
      var rest := UnhashableCode(opts[1..]);
      assert forall i :: 1 <= i < |opts| ==> opts[i] == opts[1..][i - 1];
      rest
  }

  /** The raise comes from the first option whose code has no hash. */
  lemma {:induction false} FirstUnhashable(opts: seq<Dict>, n: nat)
    requires n < |opts| && RaisesAsKey(Code(opts[n]))
    requires forall i :: 0 <= i < n ==> !RaisesAsKey(Code(opts[i]))
    ensures UnhashableCode(opts) == Some(UnhashableError(Code(opts[n])))
    decreases n
  {
    if n > 0 {
      assert forall i :: 0 <= i < n - 1 ==> opts[1..][i] == opts[i + 1];
      FirstUnhashable(opts[1..], n - 1);
    }
  }

  /** Position of the key equal to `code` among the keys of `index`, or
      `|index|`. */
  method KeyPosition(index: seq<(PyValue, seq<Dict>)>, code: PyValue) returns (j: nat)
    ensures j <= |index|
    ensures j < |index| ==> KeyOf(index[j].0) == KeyOf(code)
    ensures forall i :: 0 <= i < j ==> KeyOf(index[i].0) != KeyOf(code)
  {
    j := 0;
    while j < |index| && KeyOf(index[j].0) != KeyOf(code)
      invariant j <= |index|
      invariant forall i :: 0 <= i < j ==> KeyOf(index[i].0) != KeyOf(code)
    {
      j := j + 1;
    }
  }

  /** `_index_options`: groups the options by product code, keeping input
      order within each group and skipping options without a code; it
      raises at the first truthy code that has no hash, and `error` is
      then that message. */
  method IndexOptions(opts: seq<Dict>) returns (index: seq<(PyValue, seq<Dict>)>, error: Option<string>)
    ensures error == UnhashableCode(opts)
    ensures error.None? ==> index == Index(opts)
  {
    index := [];
    var n := 0;
    while n < |opts|
      invariant 0 <= n <= |opts|
      invariant index == Index(opts[..n])
      invariant forall i :: 0 <= i < n ==> !RaisesAsKey(Code(opts[i]))
    {
      var prod := Code(opts[n]);
      if Truthy(prod) && !Hashable(prod) {
        FirstUnhashable(opts, n);
        return index, Some(UnhashableError(prod));
      }
      index := SetDefaultAppend(opts, n, index);
      n := n + 1;
    }
    assert opts[..n] == opts;
    error := None;
  }

  /** One turn of the loop of `_index_options` for an option whose code
      has a hash or is falsy: `mapping.setdefault(prod, []).append(opt)`
      for a truthy code, nothing otherwise. */
  method SetDefaultAppend(opts: seq<Dict>, n: nat, index: seq<(PyValue, seq<Dict>)>)
    returns (next: seq<(PyValue, seq<Dict>)>)
    requires n < |opts| && index == Index(opts[..n])
    ensures next == Index(opts[..n + 1])
  {
    var opt := opts[n];
    var prod := Code(opt);
    IndexStep(opts[..n + 1]);
    assert opts[..n + 1][..n] == opts[..n];
    next := index;
    if Truthy(prod) {
      var j := KeyPosition(index, prod);
      if j < |index| {
        next := index[j := (index[j].0, index[j].1 + [opt])];
      } else {
        next := index + [(prod, [opt])];
      }
    }
  }

  /** How one more option changes the index: nothing for an option without
      a code, its group grows for a known key (which keeps its first
      spelling), a new group for a new one. */
  lemma IndexStep(opts: seq<Dict>)
    requires opts != []
    ensures var init, opt := opts[..|opts| - 1], opts[|opts| - 1];
      var c := Code(opt);
      && (!Truthy(c) ==> Index(opts) == Index(init))
      && (Truthy(c) && !KeyIn(c, Codes(init)) ==> Index(opts) == Index(init) + [(c, [opt])])
      && (forall j :: 0 <= j < |Codes(init)| && Truthy(c) && KeyOf(Codes(init)[j]) == KeyOf(c) ==>
            Index(opts) == Index(init)[j := (Index(init)[j].0, Index(init)[j].1 + [opt])])
  {
    var init, opt := opts[..|opts| - 1], opts[|opts| - 1];
    var c := Code(opt);
    CodesDistinct(init);
    var ks := Codes(init);
    if !Truthy(c) {
      forall i | 0 <= i < |ks| ensures KeyOf(c) != KeyOf(ks[i]) {
        SameKey(c, ks[i]);
        assert ks[i] in ks;
      }
      assert forall i :: 0 <= i < |ks| ==> Index(opts)[i] == Index(init)[i];
    }
    if Truthy(c) && !KeyIn(c, ks) {
      CodesAreTheTruthyCodes(init, c);
      GroupEmpty(init, c);
      assert Codes(opts) == ks + [c];
      assert Group(opts, c) == [opt];
      assert forall i :: 0 <= i < |ks| ==> Index(opts)[i] == Index(init)[i];
    }
    forall j | 0 <= j < |ks| && Truthy(c) && KeyOf(ks[j]) == KeyOf(c)
      ensures Index(opts) == Index(init)[j := (Index(init)[j].0, Index(init)[j].1 + [opt])]
    {
      assert Codes(opts) == ks;
      assert forall i :: 0 <= i < |ks| && i != j ==> KeyOf(ks[i]) != KeyOf(c);
    }
  }

  lemma {:induction false} GroupEmpty(opts: seq<Dict>, k: PyValue)
    requires forall o :: o in opts ==> KeyOf(Code(o)) != KeyOf(k)
    ensures Group(opts, k) == []
  {
    if opts != [] {
      GroupEmpty(opts[..|opts| - 1], k);
    }
  }

  lemma {:induction false} CodesDistinct(opts: seq<Dict>)
    ensures forall i, j :: 0 <= i < j < |Codes(opts)| ==> KeyOf(Codes(opts)[i]) != KeyOf(Codes(opts)[j])
    decreases |opts|
  {
    if opts != [] {
      CodesDistinct(opts[..|opts| - 1]);
    }
  }

  /** A value is the same key as one of the index exactly when it is
      truthy and some option carries a code that is the same key. */
  lemma CodesAreTheTruthyCodes(opts: seq<Dict>, k: PyValue)
    ensures KeyIn(k, Codes(opts)) <==> Truthy(k) && exists o :: o in opts && KeyOf(Code(o)) == KeyOf(k)
  {
    KeysAreCarried(opts, k);
    CarriedAreKeys(opts, k);
  }

  /** Each key is truthy and carried by some option. */
  lemma {:induction false} KeysAreCarried(opts: seq<Dict>, k: PyValue)
    ensures KeyIn(k, Codes(opts)) ==> Truthy(k) && exists o :: o in opts && KeyOf(Code(o)) == KeyOf(k)
    decreases |opts|
  {
    if opts != [] && KeyIn(k, Codes(opts)) {
      var init, last := opts[..|opts| - 1], opts[|opts| - 1];
      var prev := Codes(init);
      var i :| 0 <= i < |Codes(opts)| && KeyOf(Codes(opts)[i]) == KeyOf(k);
      assert Codes(opts)[i] in Codes(opts);
      SameKey(Codes(opts)[i], k);
      if i < |prev| {
        assert Codes(opts)[i] == prev[i];
        KeysAreCarried(init, k);
        var o :| o in init && KeyOf(Code(o)) == KeyOf(k);
        assert o in opts by { assert opts == init + [last]; }
      } else {
        assert Codes(opts)[i] == Code(last);
        assert last in opts;
      }
    }
  }

  /** Each truthy code an option carries is the same key as one of the
      index. */
  lemma {:induction false} CarriedAreKeys(opts: seq<Dict>, k: PyValue)
    ensures Truthy(k) && (exists o :: o in opts && KeyOf(Code(o)) == KeyOf(k)) ==> KeyIn(k, Codes(opts))
    decreases |opts|
  {
    if opts != [] && Truthy(k) && exists o :: o in opts && KeyOf(Code(o)) == KeyOf(k) {
      var init, last := opts[..|opts| - 1], opts[|opts| - 1];
      var prev, c := Codes(init), Code(last);
      var o :| o in opts && KeyOf(Code(o)) == KeyOf(k);
      var n :| 0 <= n < |opts| && opts[n] == o;
      if n < |opts| - 1 {
        assert o in init by { assert init[n] == o; }
        CarriedAreKeys(init, k);
        var i :| 0 <= i < |prev| && KeyOf(prev[i]) == KeyOf(k);
        assert Codes(opts)[i] == prev[i];
      } else {
        SameKey(c, k);
        if KeyIn(c, prev) {
          var i :| 0 <= i < |prev| && KeyOf(prev[i]) == KeyOf(c);
          assert Codes(opts)[i] == prev[i];
        } else {
          assert Codes(opts)[|prev|] == c;
        }
      }
    }
  }

  /** Every option whose code is the same key as `k` is in the group of
      `k`. */
  lemma {:induction false} GroupHasEveryMatch(opts: seq<Dict>, k: PyValue)
    ensures forall i :: 0 <= i < |opts| && KeyOf(Code(opts[i])) == KeyOf(k) ==> opts[i] in Group(opts, k)
    decreases |opts|
  {
    if opts != [] {
      var init := opts[..|opts| - 1];
      GroupHasEveryMatch(init, k);
      forall i | 0 <= i < |opts| && KeyOf(Code(opts[i])) == KeyOf(k) ensures opts[i] in Group(opts, k) {
        if i < |opts| - 1 { assert opts[i] == init[i]; }
      }
    }
  }

  /** What the grouping promises, with keys compared as a dictionary
      compares them: distinct keys, exactly the truthy codes, each group
      holding exactly the options whose code is that key. */
  lemma IndexProperties(opts: seq<Dict>, k: PyValue)
    ensures forall i, j :: 0 <= i < j < |Index(opts)| ==> KeyOf(Index(opts)[i].0) != KeyOf(Index(opts)[j].0)
    ensures (exists i :: 0 <= i < |Index(opts)| && KeyOf(Index(opts)[i].0) == KeyOf(k))
            <==> Truthy(k) && exists o :: o in opts && KeyOf(Code(o)) == KeyOf(k)
    ensures forall o :: o in opts && KeyOf(Code(o)) == KeyOf(k) <==> o in Group(opts, k)
  {
    CodesDistinct(opts);
    CodesAreTheTruthyCodes(opts, k);
    GroupHasEveryMatch(opts, k);
    if KeyIn(k, Codes(opts)) {
      var i :| 0 <= i < |Codes(opts)| && KeyOf(Codes(opts)[i]) == KeyOf(k);
      assert Index(opts)[i].0 == Codes(opts)[i];
    }
    forall o | o in opts && KeyOf(Code(o)) == KeyOf(k) ensures o in Group(opts, k) {
      var i :| 0 <= i < |opts| && opts[i] == o;
    }
  }

  /** The lookup finds the group of a code's key. */
  lemma LookupIndex(opts: seq<Dict>, k: PyValue)
    ensures Truthy(k) ==> Lookup(Index(opts), k) == Group(opts, k)
    ensures !Truthy(k) ==> Lookup(Index(opts), k) == []
  {
    CodesDistinct(opts);
    CodesAreTheTruthyCodes(opts, k);
    var ix := Index(opts);
    if KeyIn(k, Codes(opts)) {
      var i :| 0 <= i < |Codes(opts)| && KeyOf(Codes(opts)[i]) == KeyOf(k);
      assert KeyOf(ix[i].0) == KeyOf(k);
      assert forall j :: 0 <= j < i ==> KeyOf(ix[j].0) != KeyOf(k);
      LookupAt(ix, k, i);
      GroupsOfEqualKeys(opts, Codes(opts)[i], k);
    } else {
      assert forall i :: 0 <= i < |ix| ==> KeyOf(ix[i].0) != KeyOf(k);
      LookupAbsent(ix, k);
      if Truthy(k) {
        GroupEmpty(opts, k);
      }
    }
  }

  /** Codes that are the same key find the same options: `True`, `1` and
      `1.0` look up one group. */
  lemma EqualKeysShareAGroup(opts: seq<Dict>, a: PyValue, b: PyValue)
    requires KeyOf(a) == KeyOf(b)
    ensures Lookup(Index(opts), a) == Lookup(Index(opts), b)
  {
    SameKey(a, b);
    LookupIndex(opts, a);
    LookupIndex(opts, b);
    if Truthy(a) {
      GroupsOfEqualKeys(opts, a, b);
    }
  }

  lemma {:induction false} GroupsOfEqualKeys(opts: seq<Dict>, a: PyValue, b: PyValue)
    requires KeyOf(a) == KeyOf(b)
    ensures Group(opts, a) == Group(opts, b)
    decreases |opts|
  {
    if opts != [] {
      GroupsOfEqualKeys(opts[..|opts| - 1], a, b);
    }
  }

  /** The lookup returns the group of the first key equal to `k`. */
  lemma {:induction false} LookupAt(index: seq<(PyValue, seq<Dict>)>, k: PyValue, i: nat)
    requires i < |index| && KeyOf(index[i].0) == KeyOf(k)
    requires forall j :: 0 <= j < i ==> KeyOf(index[j].0) != KeyOf(k)
    ensures Lookup(index, k) == index[i].1
    decreases i
  {
    if i > 0 {
      assert KeyOf(index[0].0) != KeyOf(k);
      assert forall j :: 0 <= j < i - 1 ==> index[1..][j] == index[j + 1];
      LookupAt(index[1..], k, i - 1);
    }
  }

  /** The lookup of a key the index lacks gives nothing. */
  lemma {:induction false} LookupAbsent(index: seq<(PyValue, seq<Dict>)>, k: PyValue)
    requires forall i :: 0 <= i < |index| ==> KeyOf(index[i].0) != KeyOf(k)
    ensures Lookup(index, k) == []
    decreases |index|
  {
    if index != [] {
      assert forall i :: 0 <= i < |index| - 1 ==> index[1..][i] == index[i + 1];
      LookupAbsent(index[1..], k);
    }
  }

  // ---------------------------------------------------------------------
  // The user's profile
  // ---------------------------------------------------------------------

  /** The current savings product, as the request schema hands it over. */
  datatype SavingsForm = SavingsForm(
    productName: Option<string>,
    principal: real,
    annualRate: real,
    monthsRemaining: int,
    penalty: real)

  /** The asset form as the request schema hands it over; `loans` is kept
      as a raw value because the profile inspects its type. */
  datatype FinanceForm = FinanceForm(
    monthlyIncome: real,
    householdSize: int,
    realEstate: real,
    deposits: real,
    otherAssets: real,
    savings: SavingsForm,
    loans: PyValue)

  datatype Profile = Profile(
    principal: real,
    annualRate: real,
    monthsRemaining: int,
    penaltyRate: real,
    penaltyAmount: real,
    monthlyIncome: real,
    householdSize: int,
    incomePerCapita: real,
    totalAssets: real,
    liquidAssets: real,
    liquidityRatio: real,
    totalLoans: real,
    debtRatio: real)

  /** The loan entries: the list under `loans`, or none when it is not a
      list. */
  function LoanEntries(loans: PyValue): seq<PyValue> {
    if loans.PList? then loans.items else []
  }

  /** What one loan entry adds to the debt: its amount when the entry is a
      record and the amount reads as a non-zero number. */
  function LoanAmount(loan: PyValue): real {
    if loan.PDict? then
      var parsed := ParseCurrency(Get(loan.entries, "amount"));
      if parsed.Some? && parsed.value != 0.0 then parsed.value else 0.0
    else 0.0
  }

  function LoanTotal(loans: seq<PyValue>): real {
    if loans == [] then 0.0 else LoanTotal(loans[..|loans| - 1]) + LoanAmount(loans[|loans| - 1])
  }

  /** The early-termination penalty on the principal, in won, rounded to
      two places; none without a penalty rate. */
  function PenaltyAmount(principal: real, penaltyRate: real): (r: real)
    ensures penaltyRate == 0.0 ==> r == 0.0
    ensures -0.005 <= r - principal * penaltyRate <= 0.005
  {
    if penaltyRate != 0.0 then PyRound2(principal * penaltyRate) else 0.0
  }

  /** `_analysis_profile` on a form. */
  function ProfileOf(form: FinanceForm): Profile {
    var sv := form.savings;
    var penaltyAmount := PenaltyAmount(sv.principal, sv.penalty);
    var household := MaxInt(1, if form.householdSize != 0 then form.householdSize else 1);
    var total := Max(0.0, form.realEstate + form.deposits + form.otherAssets);
    var liquid := Max(0.0, form.deposits + form.otherAssets);
    var loans := LoanTotal(LoanEntries(form.loans));
    Profile(
      sv.principal, sv.annualRate * 100.0, sv.monthsRemaining, sv.penalty, penaltyAmount,
      form.monthlyIncome, household, form.monthlyIncome / household as real,
      total, liquid,
      if total > 0.0 then liquid / total else 1.0,
      loans,
      if total > 0.0 then loans / total else 0.0)
  }

  /** `_analysis_profile`: reads the form, summing the loans in a loop. */
  method AnalysisProfile(form: FinanceForm) returns (p: Profile)
    ensures p == ProfileOf(form)
  {
    var sv := form.savings;
    var principal := sv.principal;
    var annualRate := sv.annualRate * 100.0;
    var penaltyRate := sv.penalty;
    var penaltyAmount := PenaltyAmount(principal, penaltyRate);
    var household := MaxInt(1, if form.householdSize != 0 then form.householdSize else 1);
    var total := Max(0.0, form.realEstate + form.deposits + form.otherAssets);
    var liquid := Max(0.0, form.deposits + form.otherAssets);
    var liquidity := if total > 0.0 then liquid / total else 1.0;
    var totalLoans := 0.0;
    if form.loans.PList? {
      var loans := form.loans.items;
      var n := 0;
      while n < |loans|
        invariant 0 <= n <= |loans|
        invariant totalLoans == LoanTotal(loans[..n])
      {
        var loan := loans[n];
        assert loans[..n + 1][..n] == loans[..n];
        if loan.PDict? {
          var parsed := ParseCurrency(Get(loan.entries, "amount"));
          if parsed.Some? && parsed.value != 0.0 {
            totalLoans := totalLoans + parsed.value;
          }
        }
        n := n + 1;
      }
      assert loans[..n] == loans;
    }
    assert totalLoans == LoanTotal(LoanEntries(form.loans));
    var debt := if total > 0.0 then totalLoans / total else 0.0;
    p := Profile(principal, annualRate, sv.monthsRemaining, penaltyRate, penaltyAmount,
                 form.monthlyIncome, household, form.monthlyIncome / household as real,
                 total, liquid, liquidity, totalLoans, debt);
  }

  /** The bounds the profile promises whatever the form holds. */
  lemma ProfileBounds(form: FinanceForm)
    ensures var p := ProfileOf(form);
      && p.householdSize >= 1
      && p.totalAssets >= 0.0 && p.liquidAssets >= 0.0
      && (p.totalAssets == 0.0 ==> p.liquidityRatio == 1.0 && p.debtRatio == 0.0)
      && p.incomePerCapita * p.householdSize as real == p.monthlyIncome
      && (form.householdSize >= 1 ==> p.householdSize == form.householdSize)
  {
  }

  /** With non-negative deposits and other assets the liquidity ratio is a
      share: between 0 and 1. */
  lemma LiquidityIsAShare(form: FinanceForm)
    requires form.deposits >= 0.0 && form.otherAssets >= 0.0 && form.realEstate >= 0.0
    ensures 0.0 <= ProfileOf(form).liquidityRatio <= 1.0
  {
    var p := ProfileOf(form);
    if p.totalAssets > 0.0 {
      assert p.liquidAssets <= p.totalAssets;
      DivideAtMostOne(p.liquidAssets, p.totalAssets);
    }
  }

  lemma DivideAtMostOne(x: real, y: real)
    requires 0.0 <= x <= y && y > 0.0
    ensures 0.0 <= x / y <= 1.0
  {
  }

  /** Loan entries that are not records, or whose amount is missing, zero
      or unreadable, add nothing; the others add their amount. */
  lemma {:induction false} LoanTotalOfAmounts(loans: seq<PyValue>, amounts: seq<real>)
    requires |amounts| == |loans|
    requires forall i :: 0 <= i < |loans| ==> loans[i] == PDict([("amount", PFloat(amounts[i]))])
    ensures LoanTotal(loans) == Sum(amounts)
    decreases |loans|
  {
    if loans != [] {
      var n := |loans| - 1;
      LoanTotalOfAmounts(loans[..n], amounts[..n]);
      assert ParseCurrency(Get(loans[n].entries, "amount")) == Some(amounts[n]);
    }
  }

  function Sum(xs: seq<real>): real {
    if xs == [] then 0.0 else Sum(xs[..|xs| - 1]) + xs[|xs| - 1]
  }

  // ---------------------------------------------------------------------
  // Match score
  // ---------------------------------------------------------------------

  /** Up to 55 points for the rate gain, full marks from 2.5 points up. */
  function RateScore(rateGain: real): (r: real)
    ensures 0.0 <= r <= 55.0
    ensures rateGain <= 0.0 ==> r == 0.0
    ensures rateGain >= 2.5 ==> r == 55.0
  {
    Clamp(rateGain / 2.5, 0.0, 1.0) * 55.0
  }

  /** `target_term or term or DEFAULT_TERM` */
  function EffectiveTerm(term: int, targetTerm: int): int {
    if targetTerm != 0 then targetTerm else if term != 0 then term else DEFAULT_TERM
  }

  function Abs(n: int): nat { if n < 0 then -n else n }

  /** Up to 25 points for a term close to the target: full marks for the
      target itself, none once the gap reaches the target (at least 6). */
  function TermScore(term: int, targetTerm: int): (r: real)
    ensures 0.0 <= r <= 25.0
    ensures EffectiveTerm(term, targetTerm) > 0 && term == EffectiveTerm(term, targetTerm) ==> r == 25.0
  {
    var effective := EffectiveTerm(term, targetTerm);
    if effective > 0 then
      var deviation := Abs(term - effective);
      Max(0.0, 1.0 - Min(deviation as real / MaxInt(effective, 6) as real, 1.0)) * 25.0
    else 0.0
  }

  /** 10 points, less for a long term when little of the wealth is
      liquid. */
  function LiquidityScore(liquidityRatio: real, term: int): (r: real)
    ensures 4.0 <= r <= 10.0
    ensures liquidityRatio >= 0.5 ==> r == 10.0
  {
    if liquidityRatio < 0.3 then (if term <= 12 then 8.0 else 4.0)
    else if liquidityRatio < 0.5 && term > 24 then 6.0
    else 10.0
  }

  /** Points taken off a long term for an indebted user. */
  function DebtPenalty(debtRatio: real, term: int): (r: real)
    ensures 0.0 <= r <= 10.0
    ensures term <= 12 || debtRatio <= 0.35 ==> r == 0.0
  {
    if debtRatio > 0.5 && term > 12 then 10.0
    else if debtRatio > 0.35 && term > 24 then 6.0
    else 0.0
  }

  /** The net gain as a percentage of the principal, within -10..10. */
  function GainAdjust(netGain: real, principal: real): (r: real)
    ensures -10.0 <= r <= 10.0
    ensures principal <= 0.0 ==> r == 0.0
  {
    if principal > 0.0 then Clamp(netGain / principal * 100.0, -10.0, 10.0) else 0.0
  }

  function RawScore(rateGain: real, term: int, targetTerm: int, liquidityRatio: real,
                    debtRatio: real, netGain: real, principal: real): real
  {
    RateScore(rateGain) + TermScore(term, targetTerm) + LiquidityScore(liquidityRatio, term)
      + GainAdjust(netGain, principal) - DebtPenalty(debtRatio, term)
  }

  /** `_compute_match_score`: the sum of the parts, clamped to 0..100. */
  function ComputeMatchScore(rateGain: real, term: int, targetTerm: int, liquidityRatio: real,
                             debtRatio: real, netGain: real, principal: real): (r: real)
    ensures 0.0 <= r <= 100.0
  {
    Clamp(RawScore(rateGain, term, targetTerm, liquidityRatio, debtRatio, netGain, principal), 0.0, 100.0)
  }

  /** The parts already sum to at most 100 and at least -16, so only the
      lower clamp ever takes effect. */
  lemma UpperClampNeverBites(rateGain: real, term: int, targetTerm: int, liquidityRatio: real,
                             debtRatio: real, netGain: real, principal: real)
    ensures -16.0 <= RawScore(rateGain, term, targetTerm, liquidityRatio, debtRatio, netGain, principal) <= 100.0
    ensures ComputeMatchScore(rateGain, term, targetTerm, liquidityRatio, debtRatio, netGain, principal)
            == Max(0.0, RawScore(rateGain, term, targetTerm, liquidityRatio, debtRatio, netGain, principal))
  {
  }

  /** A larger rate gain never lowers the score. */
  lemma ScoreMonotoneInRate(g1: real, g2: real, term: int, targetTerm: int, liquidityRatio: real,
                            debtRatio: real, netGain: real, principal: real)
    requires g1 <= g2
    ensures ComputeMatchScore(g1, term, targetTerm, liquidityRatio, debtRatio, netGain, principal)
            <= ComputeMatchScore(g2, term, targetTerm, liquidityRatio, debtRatio, netGain, principal)
  {
    ClampMonotone(g1 / 2.5, g2 / 2.5, 0.0, 1.0);
    ClampMonotone(RawScore(g1, term, targetTerm, liquidityRatio, debtRatio, netGain, principal),
                  RawScore(g2, term, targetTerm, liquidityRatio, debtRatio, netGain, principal), 0.0, 100.0);
  }

  /** A larger net gain never lowers the score. */
  lemma ScoreMonotoneInNetGain(rateGain: real, term: int, targetTerm: int, liquidityRatio: real,
                               debtRatio: real, n1: real, n2: real, principal: real)
    requires n1 <= n2
    ensures ComputeMatchScore(rateGain, term, targetTerm, liquidityRatio, debtRatio, n1, principal)
            <= ComputeMatchScore(rateGain, term, targetTerm, liquidityRatio, debtRatio, n2, principal)
  {
    if principal > 0.0 {
      assert n1 / principal <= n2 / principal;
      ClampMonotone(n1 / principal * 100.0, n2 / principal * 100.0, -10.0, 10.0);
    }
    ClampMonotone(RawScore(rateGain, term, targetTerm, liquidityRatio, debtRatio, n1, principal),
                  RawScore(rateGain, term, targetTerm, liquidityRatio, debtRatio, n2, principal), 0.0, 100.0);
  }

  /** Full marks: a rate 2.5 points better, the target term, a liquid user
      without much debt and a net gain of a tenth of the principal. */
  lemma FullMarks(rateGain: real, targetTerm: int, liquidityRatio: real, debtRatio: real,
                  netGain: real, principal: real)
    requires rateGain >= 2.5 && targetTerm > 0 && liquidityRatio >= 0.5 && debtRatio <= 0.35
    requires principal > 0.0 && netGain >= principal / 10.0
    ensures ComputeMatchScore(rateGain, targetTerm, targetTerm, liquidityRatio, debtRatio, netGain, principal) == 100.0
  {
    assert netGain / principal >= 0.1;
    assert netGain / principal * 100.0 >= 10.0;
  }

  // ---------------------------------------------------------------------
  // Reasons
  // ---------------------------------------------------------------------

  /** The reasons shown with a candidate, by what they say (the wording
      and number formatting are not modelled). */
  datatype Reason =
    | RateUp(gain: real)
    | RateDown(drop: real)
    | RateSame
    | InterestUp(amount: real)
    | InterestDown(amount: real)
    | PenaltyCovered(penalty: real, net: real)
    | PenaltyLoss(net: real)
    | NetGainExpected(net: real)
    | SimilarTerm
    | Shorter(months: int)
    | Longer(months: int)
    | LiquidityGuard
    | LongTermUse
    | JoinWay(way: string)

  const MAX_REASONS: nat := 5

  function RateReason(rateGain: real): Reason {
    if rateGain > 0.05 then RateUp(rateGain)
    else if rateGain < -0.05 then RateDown(-rateGain)
    else RateSame
  }

  function InterestReasons(interestGain: real): (r: seq<Reason>)
    ensures |r| <= 1 && forall x :: x in r ==> !IsRateReason(x) && !x.JoinWay?
  {
    if interestGain > 0.0 then [InterestUp(interestGain)]
    else if interestGain < 0.0 then [InterestDown(-interestGain)]
    else []
  }

  function PenaltyReasons(penaltyAmount: real, netGain: real): (r: seq<Reason>)
    ensures |r| <= 1 && forall x :: x in r ==> !IsRateReason(x) && !x.JoinWay?
  {
    if penaltyAmount > 0.0 then
      if netGain >= 0.0 then [PenaltyCovered(penaltyAmount, netGain)] else [PenaltyLoss(netGain)]
    else if netGain > 0.0 then [NetGainExpected(netGain)]
    else []
  }

  function TermReasons(term: int, targetTerm: int): (r: seq<Reason>)
    ensures |r| <= 1 && forall x :: x in r ==> !IsRateReason(x) && !x.JoinWay?
  {
    if targetTerm > 0 then
      var gap := term - targetTerm;
      if Abs(gap) <= 3 then [SimilarTerm]
      else if gap < 0 then [Shorter(-gap)]
      else [Longer(gap)]
    else []
  }

  function LiquidityReasons(liquidityRatio: real, term: int): (r: seq<Reason>)
    ensures |r| <= 1 && forall x :: x in r ==> !IsRateReason(x) && !x.JoinWay?
  {
    if liquidityRatio < 0.3 && term <= 12 then [LiquidityGuard]
    else if liquidityRatio >= 0.5 && term >= 24 then [LongTermUse]
    else []
  }

  function JoinReasons(joinWay: Option<string>): (r: seq<Reason>)
    ensures |r| <= 1 && forall x :: x in r ==> x.JoinWay?
  {
    if joinWay.Some? && joinWay.value != [] && PyStrip(joinWay.value) != [] then [JoinWay(PyStrip(joinWay.value))]
    else []
  }

  /** The reasons after the rate reason that apply, in rule order. */
  function FurtherReasons(term: int, targetTerm: int, interestGain: real, netGain: real,
                          penaltyAmount: real, liquidityRatio: real, joinWay: Option<string>): (r: seq<Reason>)
    ensures |r| <= 5
    ensures forall x :: x in r ==> !IsRateReason(x)
  {
    InterestReasons(interestGain) + PenaltyReasons(penaltyAmount, netGain)
      + TermReasons(term, targetTerm) + LiquidityReasons(liquidityRatio, term) + JoinReasons(joinWay)
  }

  /** Every reason that applies, in the order the rules are tried. */
  function AllReasons(rateGain: real, term: int, targetTerm: int, interestGain: real, netGain: real,
                      penaltyAmount: real, liquidityRatio: real, joinWay: Option<string>): seq<Reason>
  {
    [RateReason(rateGain)] + FurtherReasons(term, targetTerm, interestGain, netGain, penaltyAmount, liquidityRatio, joinWay)
  }

  /** The reasons kept: the first five that apply. */
  function Reasons(rateGain: real, term: int, targetTerm: int, interestGain: real, netGain: real,
                   penaltyAmount: real, liquidityRatio: real, joinWay: Option<string>): seq<Reason>
  {
    var all := AllReasons(rateGain, term, targetTerm, interestGain, netGain, penaltyAmount, liquidityRatio, joinWay);
    all[..MinInt(MAX_REASONS, |all|)]
  }

  /** `_build_reasons`: appends the reason of each rule that applies, then
      keeps the first five. */
  method BuildReasons(rateGain: real, term: int, targetTerm: int, interestGain: real, netGain: real,
                      penaltyAmount: real, liquidityRatio: real, joinWay: Option<string>)
    returns (reasons: seq<Reason>)
    ensures reasons == Reasons(rateGain, term, targetTerm, interestGain, netGain, penaltyAmount, liquidityRatio, joinWay)
  {
    reasons := ApplyRules(rateGain, term, targetTerm, interestGain, netGain, penaltyAmount, liquidityRatio, joinWay);
    reasons := reasons[..MinInt(MAX_REASONS, |reasons|)];
  }

  /** The appending part of `_build_reasons`: one reason per rule that
      applies, in rule order. */
  method ApplyRules(rateGain: real, term: int, targetTerm: int, interestGain: real, netGain: real,
                    penaltyAmount: real, liquidityRatio: real, joinWay: Option<string>)
    returns (reasons: seq<Reason>)
    ensures reasons == AllReasons(rateGain, term, targetTerm, interestGain, netGain, penaltyAmount, liquidityRatio, joinWay)
  {
    // `expected` follows the rules' own definitions step by step.
    reasons := [if rateGain > 0.05 then RateUp(rateGain)
                else if rateGain < -0.05 then RateDown(-rateGain)
                else RateSame];
    ghost var expected := [RateReason(rateGain)];
    assert reasons == expected;

    reasons := reasons + (if interestGain > 0.0 then [InterestUp(interestGain)]
                          else if interestGain < 0.0 then [InterestDown(-interestGain)]
                          else []);
    expected := expected + InterestReasons(interestGain);
    assert reasons == expected;

    reasons := reasons + (if penaltyAmount > 0.0 then
                            if netGain >= 0.0 then [PenaltyCovered(penaltyAmount, netGain)] else [PenaltyLoss(netGain)]
                          else if netGain > 0.0 then [NetGainExpected(netGain)]
                          else []);
    expected := expected + PenaltyReasons(penaltyAmount, netGain);
    assert reasons == expected;

    var gap := term - targetTerm;
    reasons := reasons + (if targetTerm <= 0 then []
                          else if Abs(gap) <= 3 then [SimilarTerm]
                          else if gap < 0 then [Shorter(-gap)]
                          else [Longer(gap)]);
    expected := expected + TermReasons(term, targetTerm);
    assert reasons == expected;

    reasons := reasons + (if liquidityRatio < 0.3 && term <= 12 then [LiquidityGuard]
                          else if liquidityRatio >= 0.5 && term >= 24 then [LongTermUse]
                          else []);
    expected := expected + LiquidityReasons(liquidityRatio, term);
    assert reasons == expected;

    expected := expected + JoinReasons(joinWay);
    if joinWay.Some? && joinWay.value != [] {
      var cleaned := PyStrip(joinWay.value);
      if cleaned != [] {
        reasons := reasons + [JoinWay(cleaned)];
      }
      assert JoinReasons(joinWay) == if cleaned != [] then [JoinWay(cleaned)] else [];
    } else {
      assert JoinReasons(joinWay) == [];
    }
    assert reasons == expected;

    AllReasonsInRuleOrder(rateGain, term, targetTerm, interestGain, netGain, penaltyAmount, liquidityRatio, joinWay);
  }

  lemma AllReasonsInRuleOrder(rateGain: real, term: int, targetTerm: int, interestGain: real, netGain: real,
                              penaltyAmount: real, liquidityRatio: real, joinWay: Option<string>)
    ensures AllReasons(rateGain, term, targetTerm, interestGain, netGain, penaltyAmount, liquidityRatio, joinWay)
         == [RateReason(rateGain)] + InterestReasons(interestGain) + PenaltyReasons(penaltyAmount, netGain)
            + TermReasons(term, targetTerm) + LiquidityReasons(liquidityRatio, term) + JoinReasons(joinWay)
  {
    Regroup([RateReason(rateGain)], InterestReasons(interestGain), PenaltyReasons(penaltyAmount, netGain),
            TermReasons(term, targetTerm), LiquidityReasons(liquidityRatio, term), JoinReasons(joinWay));
  }

  lemma Regroup<T>(a: seq<T>, b: seq<T>, c: seq<T>, d: seq<T>, e: seq<T>, f: seq<T>)
    ensures a + b + c + d + e + f == a + (b + c + d + e + f)
  {
  }

  predicate IsRateReason(r: Reason) { r.RateUp? || r.RateDown? || r.RateSame? }

  /** At most five reasons, the first always about the rate: up by more
      than 0.05 points, down by more than 0.05, or about the same. */
  lemma ReasonsShape(rateGain: real, term: int, targetTerm: int, interestGain: real, netGain: real,
                     penaltyAmount: real, liquidityRatio: real, joinWay: Option<string>)
    ensures var r := Reasons(rateGain, term, targetTerm, interestGain, netGain, penaltyAmount, liquidityRatio, joinWay);
      && 1 <= |r| <= MAX_REASONS
      && IsRateReason(r[0])
      && (r[0].RateUp? <==> rateGain > 0.05)
      && (r[0].RateDown? <==> rateGain < -0.05)
      && (r[0].RateSame? <==> -0.05 <= rateGain <= 0.05)
      && (forall i :: 1 <= i < |r| ==> !IsRateReason(r[i]))
  {
    var further := FurtherReasons(term, targetTerm, interestGain, netGain, penaltyAmount, liquidityRatio, joinWay);
    var all := AllReasons(rateGain, term, targetTerm, interestGain, netGain, penaltyAmount, liquidityRatio, joinWay);
    var r := Reasons(rateGain, term, targetTerm, interestGain, netGain, penaltyAmount, liquidityRatio, joinWay);
    assert all == [RateReason(rateGain)] + further;
    assert r == all[..MinInt(MAX_REASONS, |all|)];
    assert r[0] == RateReason(rateGain);
    FrontOnly(RateReason(rateGain), further, MinInt(MAX_REASONS, |all|), IsRateReason);
  }

  /** In a prefix of `[x] + rest`, every element after the first comes from
      `rest`, so none has a property no element of `rest` has. */
  lemma FrontOnly<T>(x: T, rest: seq<T>, m: nat, P: T -> bool)
    requires m <= 1 + |rest| && forall y :: y in rest ==> !P(y)
    ensures forall i :: 1 <= i < m ==> !P(([x] + rest)[..m][i])
  {
    forall i | 1 <= i < m ensures !P(([x] + rest)[..m][i]) {
      assert ([x] + rest)[..m][i] == rest[i - 1];
      assert rest[i - 1] in rest;
    }
  }

  /** Six rules can fire, so the cap only ever drops the joining-channel
      reason, and it does so exactly when all five other rules fire. */
  lemma CapDropsOnlyJoinWay(rateGain: real, term: int, targetTerm: int, interestGain: real, netGain: real,
                            penaltyAmount: real, liquidityRatio: real, joinWay: Option<string>)
    ensures var all := AllReasons(rateGain, term, targetTerm, interestGain, netGain, penaltyAmount, liquidityRatio, joinWay);
      var r := Reasons(rateGain, term, targetTerm, interestGain, netGain, penaltyAmount, liquidityRatio, joinWay);
      && |all| <= 6
      && (|all| == 6 <==> InterestReasons(interestGain) != [] && PenaltyReasons(penaltyAmount, netGain) != []
                          && TermReasons(term, targetTerm) != [] && LiquidityReasons(liquidityRatio, term) != []
                          && JoinReasons(joinWay) != [])
      && (|all| < 6 ==> r == all)
      && (|all| == 6 ==> r == all[..5] && all[5].JoinWay?)
  {
  }

  // ---------------------------------------------------------------------
  // Candidates, ranking and decision
  // ---------------------------------------------------------------------

  /** One (product, term option) pair the user could switch to. */
  datatype Candidate = Candidate(
    companyName: PyValue,
    productName: PyValue,
    productCode: PyValue,
    rate: real,
    baseRate: Option<real>,
    interest: real,
    interestGain: real,
    monthlyGain: real,
    penalty: real,
    netGain: real,
    rateGain: real,
    saveTerm: int,
    description: PyValue,
    joinMethod: PyValue,
    joinMember: PyValue,
    maxLimit: Option<real>,
    matchScore: int,
    reasons: seq<Reason>)

  /** The term the candidates are compared against: the months left, or
      12 when none are. */
  function TargetTerm(p: Profile): (t: int)
    ensures t > 0
  {
    if p.monthsRemaining > 0 then p.monthsRemaining else DEFAULT_TERM
  }

  /** A product whose positive deposit limit is below the principal cannot
      take the money. */
  predicate OverLimit(maxLimit: Option<real>, principal: real) {
    maxLimit.Some? && maxLimit.value > 0.0 && principal > maxLimit.value
  }

  /** `_build_reasons` calls `.strip()` on a truthy joining channel, and
      only text has that method: any other truthy value raises. */
  predicate StripRaises(joinWay: PyValue) {
    Truthy(joinWay) && !joinWay.PStr?
  }

  /** Python's name for the type of a decoded JSON value. */
  function TypeName(v: PyValue): string {
    match v
    case PNone => "NoneType"
    case PBool(_) => "bool"
    case PInt(_) => "int"
    case PFloat(_) => "float"
    case PStr(_) => "str"
    case PList(_) => "list"
    case PDict(_) => "dict"
  }

  /** The message of the `AttributeError` that `.strip()` raises. */
  function StripError(joinWay: PyValue): string {
    "'" + TypeName(joinWay) + "' object has no attribute 'strip'"
  }

  /** The joining channel the reasons see: the text, or none for a falsy
      value. A truthy value that is not text raises (`StripRaises`) and
      then no report is built at all. */
  function JoinWayOf(base: Dict): (r: Option<string>)
    ensures r.Some? <==> Get(base, "join_way").PStr?
  {
    var v := Get(base, "join_way");
    if v.PStr? then Some(v.s) else None
  }

  /** The candidate carries the product's own fields: its company, name,
      code, description (the special conditions, or else the note) and
      joining channel and members. */
  predicate FromProduct(c: Candidate, base: Dict) {
    && c.companyName == Get(base, "kor_co_nm")
    && c.productName == Get(base, "fin_prdt_nm")
    && c.productCode == Code(base)
    && c.description == Or(Get(base, "spcl_cnd"), Get(base, "etc_note"))
    && c.joinMethod == Get(base, "join_way")
    && c.joinMember == Get(base, "join_member")
  }

  /** The candidate for an option of term `t` (months) at `top` percent:
      its interest and its gain over the current product at the same term,
      the net gain after the penalty, the score and the reasons. */
  function CandidateFrom(base: Dict, p: Profile, targetTerm: int, maxLimit: Option<real>,
                         t: int, top: real, baseRate: Option<real>): (r: Candidate)
    requires t > 0
    ensures r.saveTerm == t && 0 <= r.matchScore <= 100
    ensures FromProduct(r, base) && r.maxLimit == maxLimit
    ensures r.penalty == p.penaltyAmount
  {
    var interest := ComputeInterest(p.principal, top, t);
    var baseline := ComputeInterest(p.principal, p.annualRate, t);
    var interestGain := PyRound2(interest - baseline);
    var netGain := PyRound2(interestGain - p.penaltyAmount);
    var rateGain := PyRound3(top - p.annualRate);
    var score := ComputeMatchScore(rateGain, t, targetTerm, p.liquidityRatio, p.debtRatio, netGain, p.principal);
    Candidate(
      Get(base, "kor_co_nm"), Get(base, "fin_prdt_nm"), Code(base),
      PyRound3(top), if baseRate.Some? then Some(PyRound3(baseRate.value)) else None,
      PyRound2(interest), interestGain, PyRound2(interestGain / t as real), p.penaltyAmount, netGain, rateGain, t,
      Or(Get(base, "spcl_cnd"), Get(base, "etc_note")), Get(base, "join_way"), Get(base, "join_member"),
      maxLimit, PyRound(score),
      Reasons(rateGain, t, targetTerm, interestGain, netGain, p.penaltyAmount, p.liquidityRatio, JoinWayOf(base)))
  }

  /** The candidate for one option of a product, or None when the option
      has no positive term or no readable rate. */
  function CandidateOf(base: Dict, opt: Dict, p: Profile, targetTerm: int, maxLimit: Option<real>): (r: Option<Candidate>)
    ensures r.Some? ==> r.value.saveTerm > 0 && 0 <= r.value.matchScore <= 100
    ensures r.Some? ==> FromProduct(r.value, base) && r.value.maxLimit == maxLimit
  {
    var term := ParseInt(Get(opt, "save_trm"));
    var topRate := ParseFloat(Or(Get(opt, "intr_rate2"), Get(opt, "intr_rate")));
    var baseRate := ParseFloat(Get(opt, "intr_rate"));
    if term.None? || term.value <= 0 || topRate.None? then None
    else Some(CandidateFrom(base, p, targetTerm, maxLimit, term.value, topRate.value, baseRate))
  }

  /** The candidates of one product's options, in option order. */
  function OptionCandidates(base: Dict, opts: seq<Dict>, p: Profile, targetTerm: int, maxLimit: Option<real>): (r: seq<Candidate>)
    ensures forall c :: c in r ==> c.saveTerm > 0 && 0 <= c.matchScore <= 100
    ensures forall c :: c in r ==> c.productCode == Code(base) && c.maxLimit == maxLimit
  {
    if opts == [] then []
    else
      var prev := OptionCandidates(base, opts[..|opts| - 1], p, targetTerm, maxLimit);
      var c := CandidateOf(base, opts[|opts| - 1], p, targetTerm, maxLimit);
      if c.Some? then prev + [c.value] else prev
  }

  /** Whether the product loop reaches `options_by_product.get` with
      `base`'s code, a truthy one under a limit the principal does not
      exceed, and the code has no hash, so the lookup raises. */
  predicate LookupRaises(base: Dict, p: Profile) {
    Truthy(Code(base)) && !OverLimit(ParseCurrency(Get(base, "max_limit")), p.principal) && !Hashable(Code(base))
  }

  /** The candidates of one product: none without a code or when the
      principal is over its limit; none either for a code without a hash,
      whose lookup raises instead (`LookupRaises`). */
  function ProductCandidates(base: Dict, index: seq<(PyValue, seq<Dict>)>, p: Profile, targetTerm: int): (r: seq<Candidate>)
    ensures forall c :: c in r ==> Truthy(c.productCode) && !OverLimit(c.maxLimit, p.principal)
    ensures forall c :: c in r ==> FromProduct(c, base)
    ensures r != [] ==> !LookupRaises(base, p)
  {
    var maxLimit := ParseCurrency(Get(base, "max_limit"));
    if !Truthy(Code(base)) || OverLimit(maxLimit, p.principal) || !Hashable(Code(base)) then []
    else
      OptionsFromProduct(base, Lookup(index, Code(base)), p, targetTerm, maxLimit);
      OptionCandidates(base, Lookup(index, Code(base)), p, targetTerm, maxLimit)
  }

  /** Every candidate of a product's options carries the product's own
      fields. */
  lemma {:induction false} OptionsFromProduct(base: Dict, opts: seq<Dict>, p: Profile, targetTerm: int, maxLimit: Option<real>)
    ensures forall c :: c in OptionCandidates(base, opts, p, targetTerm, maxLimit) ==> FromProduct(c, base)
    decreases |opts|
  {
    if opts != [] {
      OptionsFromProduct(base, opts[..|opts| - 1], p, targetTerm, maxLimit);
    }
  }

  /** All candidates, product by product in the order of the product
      list. */
  function AllCandidates(bases: seq<Dict>, index: seq<(PyValue, seq<Dict>)>, p: Profile, targetTerm: int): (r: seq<Candidate>)
    ensures forall c :: c in r ==> c.saveTerm > 0 && 0 <= c.matchScore <= 100
    ensures forall c :: c in r ==> Truthy(c.productCode) && !OverLimit(c.maxLimit, p.principal)
  {
    if bases == [] then []
    else AllCandidates(bases[..|bases| - 1], index, p, targetTerm) + ProductCandidates(bases[|bases| - 1], index, p, targetTerm)
  }

  /** The sort key: match score, then net gain, then rate. */
  function RankKey(c: Candidate): seq<real> { [c.matchScore as real, c.netGain, c.rate] }

  datatype Action = SwitchAdvised | ReviewKeeping
  datatype Decision = TooFewProducts | ReviewSwitching | KeepCurrent

  datatype Best = Best(candidate: Candidate, action: Action)

  datatype Current = Current(
    productName: string,
    annualRate: real,
    monthsRemaining: int,
    principal: real,
    expectedInterest: real,
    expectedInterestSameTerm: real,
    penaltyRate: real,
    penaltyAmount: real,
    targetTerm: int)

  datatype Summary = Summary(
    recommendationCount: nat,
    decision: Decision,
    netGain: real,
    penaltyAmount: real,
    currentInterestProjection: real,
    currentInterestRemaining: real,
    confidence: real,
    targetTerm: int)

  datatype Saving = Saving(current: Current, best: Option<Best>, alternatives: seq<Candidate>, summary: Summary)

  const DEFAULT_PRODUCT_NAME: string := "현재 적금"

  /** The report on a ranked candidate list: the first is the best, the
      next three are the alternatives. */
  function Report(form: FinanceForm, p: Profile, ranked: seq<Candidate>): Saving {
    var target := TargetTerm(p);
    var remaining := if p.monthsRemaining != 0 then ComputeInterest(p.principal, p.annualRate, p.monthsRemaining) else 0.0;
    var projected := ComputeInterest(p.principal, p.annualRate, target);
    var name := form.savings.productName;
    var current := Current(
      if name.Some? && name.value != [] then name.value else DEFAULT_PRODUCT_NAME,
      PyRound3(p.annualRate), p.monthsRemaining, p.principal,
      PyRound2(remaining), PyRound2(projected), p.penaltyRate, p.penaltyAmount, target);
    if ranked == [] then
      Saving(current, None, [], Summary(0, TooFewProducts, 0.0, p.penaltyAmount, projected, remaining, 0.0, target))
    else
      var best := ranked[0];
      Saving(current,
        Some(Best(best, if best.netGain > 0.0 then SwitchAdvised else ReviewKeeping)),
        ranked[1..MinInt(4, |ranked|)],
        Summary(|ranked|, if best.netGain > 0.0 then ReviewSwitching else KeepCurrent, best.netGain,
                p.penaltyAmount, projected, remaining, best.matchScore as real / 100.0, target))
  }

  /** The report `build_finance_switching` returns when nothing raises: None
      when either list is empty, otherwise the report on the candidates
      sorted by (score, net gain, rate), highest first. */
  function Switching(form: FinanceForm, bases: seq<Dict>, opts: seq<Dict>): Option<Saving> {
    if bases == [] || opts == [] then None
    else
      var p := ProfileOf(form);
      Some(Report(form, p, SortDesc(AllCandidates(bases, Index(opts), p, TargetTerm(p)), RankKey)))
  }

  /** The message of the first candidate, in the order they are built,
      whose joining channel makes `.strip()` raise. */
  function FirstStripError(cands: seq<Candidate>): (r: Option<string>)
    ensures r.None? <==> forall i :: 0 <= i < |cands| ==> !StripRaises(cands[i].joinMethod)
    ensures r.Some? ==> exists i :: 0 <= i < |cands| && StripRaises(cands[i].joinMethod) && r.value == StripError(cands[i].joinMethod)
  {
    if cands == [] then None
    else if StripRaises(cands[0].joinMethod) then Some(StripError(cands[0].joinMethod))
    else
      var rest := FirstStripError(cands[1..]);
      assert forall i :: 1 <= i < |cands| ==> cands[i] == cands[1..][i - 1];
      rest
  }

  /** What a run of `build_finance_switching` ends in: a report, or the
      exception raised while building the reasons. */
  datatype Outcome = Returned(saving: Option<Saving>) | Raised(message: string)

  /** What building product `base`'s candidates raises, if anything: the
      lookup of a code without a hash, or else `.strip()` on the joining
      channel of its first candidate. */
  function ProductError(base: Dict, index: seq<(PyValue, seq<Dict>)>, p: Profile, targetTerm: int): Option<string> {
    if LookupRaises(base, p) then Some(UnhashableError(Code(base)))
    else FirstStripError(ProductCandidates(base, index, p, targetTerm))
  }

  /** All candidates of a product share its joining channel, so a product
      raises at its lookup, or else exactly when it has a candidate and
      `.strip()` fails on that channel. */
  lemma ProductErrorCases(base: Dict, index: seq<(PyValue, seq<Dict>)>, p: Profile, targetTerm: int)
    ensures var r := ProductError(base, index, p, targetTerm);
      && (LookupRaises(base, p) ==> r == Some(UnhashableError(Code(base))))
      && (!LookupRaises(base, p) && ProductCandidates(base, index, p, targetTerm) != [] && StripRaises(Get(base, "join_way"))
          ==> r == Some(StripError(Get(base, "join_way"))))
      && (r.None? <==> !LookupRaises(base, p)
                       && (ProductCandidates(base, index, p, targetTerm) == [] || !StripRaises(Get(base, "join_way"))))
  {
    var cands := ProductCandidates(base, index, p, targetTerm);
    assert forall i :: 0 <= i < |cands| ==> cands[i] in cands;
  }

  /** The first message of a run of steps each of which may raise. */
  function FirstRaised(errs: seq<Option<string>>): (r: Option<string>)
    ensures r.None? <==> forall i :: 0 <= i < |errs| ==> errs[i].None?
  {
    if errs == [] then None
    else if errs[0].Some? then errs[0]
    else
      assert forall i :: 1 <= i < |errs| ==> errs[i] == errs[1..][i - 1];
      FirstRaised(errs[1..])
  }

  /** The first step that raises gives the run's message. */
  lemma {:induction false} FirstRaisedAt(errs: seq<Option<string>>, b: nat)
    requires b < |errs| && errs[b].Some?
    requires forall j :: 0 <= j < b ==> errs[j].None?
    ensures FirstRaised(errs) == errs[b]
    decreases b
  {
    if b > 0 {
      assert forall j :: 0 <= j < b - 1 ==> errs[1..][j] == errs[j + 1];
      FirstRaisedAt(errs[1..], b - 1);
    }
  }

  /** The first exception of the product loop, product by product in the
      order of the product list, or None when the loop runs through. */
  function RunError(bases: seq<Dict>, index: seq<(PyValue, seq<Dict>)>, p: Profile, targetTerm: int): (r: Option<string>)
    ensures r.None? <==> forall i :: 0 <= i < |bases| ==> ProductError(bases[i], index, p, targetTerm).None?
  {
    var errs := seq(|bases|, i requires 0 <= i < |bases| => ProductError(bases[i], index, p, targetTerm));
    assert forall i :: 0 <= i < |bases| ==> errs[i] == ProductError(bases[i], index, p, targetTerm);
    FirstRaised(errs)
  }

  /** `build_finance_switching` once the product lists are fetched: with
      either list empty it returns no report before building anything;
      otherwise grouping the options raises at the first option code
      without a hash, then the product loop raises at its first failing
      lookup or `.strip()`, and else the report is returned. */
  function SwitchingOutcome(form: FinanceForm, bases: seq<Dict>, opts: seq<Dict>): Outcome {
    if bases == [] || opts == [] then Returned(None)
    else if UnhashableCode(opts).Some? then Raised(UnhashableCode(opts).value)
    else
      var p := ProfileOf(form);
      match RunError(bases, Index(opts), p, TargetTerm(p))
      case Some(m) => Raised(m)
      case None => Returned(Switching(form, bases, opts))
  }

  /** The body of the inner loop for one option: reads the term and the
      rates and skips the option when either is unusable. */
  method MakeCandidate(base: Dict, opt: Dict, p: Profile, targetTerm: int, maxLimit: Option<real>)
    returns (c: Option<Candidate>)
    ensures c == CandidateOf(base, opt, p, targetTerm, maxLimit)
  {
    var term := ParseInt(Get(opt, "save_trm"));
    if term.None? || term.value <= 0 {
      return None;
    }
    var topRate := ParseFloat(Or(Get(opt, "intr_rate2"), Get(opt, "intr_rate")));
    var baseRate := ParseFloat(Get(opt, "intr_rate"));
    if topRate.None? {
      return None;
    }
    c := Some(CandidateFrom(base, p, targetTerm, maxLimit, term.value, topRate.value, baseRate));
  }

  /** One turn of the outer loop: the product is skipped without a code or
      when the principal is over its limit; the lookup of a code without a
      hash raises; otherwise each of its options is evaluated in turn. All
      its candidates share its joining channel, so building the first one's
      reasons raises exactly when it has a candidate and `.strip()` fails
      on the channel. `raised` is the message of what the turn raised. */
  method ProductLoop(base: Dict, index: seq<(PyValue, seq<Dict>)>, p: Profile, target: int)
    returns (cands: seq<Candidate>, raised: Option<string>)
    ensures cands == ProductCandidates(base, index, p, target)
    ensures raised == ProductError(base, index, p, target)
  {
    cands := [];
    var prod := Code(base);
    var maxLimit := ParseCurrency(Get(base, "max_limit"));
    if !Truthy(prod) || OverLimit(maxLimit, p.principal) {
      return cands, None;
    }
    if !Hashable(prod) {
      return cands, Some(UnhashableError(prod));
    }
    cands := OptionLoop(base, Lookup(index, prod), p, target, maxLimit);
    var joinWay := Get(base, "join_way");
    ProductErrorCases(base, index, p, target);
    raised := if cands != [] && StripRaises(joinWay) then Some(StripError(joinWay)) else None;
  }

  /** The inner loop: the options of one product, in order, each giving a
      candidate or nothing. */
  method OptionLoop(base: Dict, options: seq<Dict>, p: Profile, target: int, maxLimit: Option<real>)
    returns (cands: seq<Candidate>)
    ensures cands == OptionCandidates(base, options, p, target, maxLimit)
  {
    cands := [];
    var o := 0;
    while o < |options|
      invariant 0 <= o <= |options|
      invariant cands == OptionCandidates(base, options[..o], p, target, maxLimit)
    {
      assert options[..o + 1][..o] == options[..o];
      var cand := MakeCandidate(base, options[o], p, target, maxLimit);
      if cand.Some? {
        cands := cands + [cand.value];
      }
      o := o + 1;
    }
    assert options[..o] == options;
  }

  /** `build_finance_switching`: the profile, the grouping of the options,
      the nested loop over products and their options, the sort and the
      report; or the exception the grouping, a lookup or a candidate's
      reasons raised. The product lists stand for what the product API
      returned. */
  method BuildFinanceSwitching(form: FinanceForm, bases: seq<Dict>, opts: seq<Dict>) returns (r: Outcome)
    ensures r == SwitchingOutcome(form, bases, opts)
  {
    var p := AnalysisProfile(form);
    if bases == [] || opts == [] {
      return Returned(None);
    }
    var target := TargetTerm(p);
    var index, failed := IndexOptions(opts);
    if failed.Some? {
      return Raised(failed.value);
    }
    var candidates: seq<Candidate> := [];
    var b := 0;
    while b < |bases|
      invariant 0 <= b <= |bases|
      invariant candidates == AllCandidates(bases[..b], index, p, target)
      invariant forall j :: 0 <= j < b ==> ProductError(bases[j], index, p, target).None?
    {
      var more, raised := ProductLoop(bases[b], index, p, target);
      if raised.Some? {
        RaisedAt(bases, index, p, target, b);
        return Raised(raised.value);
      }
      AllCandidatesStep(bases, index, p, target, b);
      NoneRaisedStep(bases, index, p, target, b);
      candidates := candidates + more;
      b := b + 1;
    }
    assert bases[..b] == bases;
    var ranked := SortDesc(candidates, RankKey);
    r := Returned(Some(Report(form, p, ranked)));
  }

  /** The products before `b + 1` raise nothing when those before `b`
      and product `b` do not. */
  lemma NoneRaisedStep(bases: seq<Dict>, index: seq<(PyValue, seq<Dict>)>, p: Profile, target: int, b: nat)
    requires b < |bases|
    requires forall j :: 0 <= j < b ==> ProductError(bases[j], index, p, target).None?
    requires ProductError(bases[b], index, p, target).None?
    ensures forall j :: 0 <= j < b + 1 ==> ProductError(bases[j], index, p, target).None?
  {
  }

  /** One more product adds its own candidates at the end. */
  lemma AllCandidatesStep(bases: seq<Dict>, index: seq<(PyValue, seq<Dict>)>, p: Profile, target: int, b: nat)
    requires b < |bases|
    ensures AllCandidates(bases[..b + 1], index, p, target)
            == AllCandidates(bases[..b], index, p, target) + ProductCandidates(bases[b], index, p, target)
  {
    assert bases[..b + 1][..b] == bases[..b] && bases[..b + 1][b] == bases[b];
  }

  /** The candidates of two runs of products are those of each in turn. */
  lemma {:induction false} AllCandidatesAppend(xs: seq<Dict>, ys: seq<Dict>, index: seq<(PyValue, seq<Dict>)>, p: Profile, target: int)
    ensures AllCandidates(xs + ys, index, p, target) == AllCandidates(xs, index, p, target) + AllCandidates(ys, index, p, target)
    decreases |ys|
  {
    if ys == [] {
      assert xs + ys == xs;
    } else {
      var n := |ys| - 1;
      var zs := xs + ys;
      AllCandidatesAppend(xs, ys[..n], index, p, target);
      SplitLast(xs, ys);
      Reassociate(AllCandidates(zs, index, p, target), AllCandidates(xs, index, p, target),
                  AllCandidates(ys[..n], index, p, target), ProductCandidates(ys[n], index, p, target),
                  AllCandidates(ys, index, p, target));
    }
  }

  lemma SplitLast<T>(xs: seq<T>, ys: seq<T>)
    requires ys != []
    ensures (xs + ys)[..|xs + ys| - 1] == xs + ys[..|ys| - 1]
    ensures (xs + ys)[|xs + ys| - 1] == ys[|ys| - 1]
  {
    assert (xs + ys)[..|xs + ys| - 1] == xs + ys[..|ys| - 1];
  }

  lemma Reassociate<T>(whole: seq<T>, a: seq<T>, b: seq<T>, c: seq<T>, tail: seq<T>)
    requires whole == a + b + c && tail == b + c
    ensures whole == a + tail
  {
  }

  /** The first raising candidate of a concatenation is the first of the
      front part, or else the first of the back part. */
  lemma {:induction false} FirstStripErrorAppend(a: seq<Candidate>, b: seq<Candidate>)
    ensures FirstStripError(a + b) == if FirstStripError(a).Some? then FirstStripError(a) else FirstStripError(b)
    decreases |a|
  {
    if a == [] {
      assert a + b == b;
    } else {
      var ab := a + b;
      assert ab[0] == a[0] && ab[1..] == a[1..] + b;
      FirstStripErrorAppend(a[1..], b);
    }
  }

  /** When no earlier product raised and product `b` does, the run raises
      with product `b`'s message. */
  lemma RaisedAt(bases: seq<Dict>, index: seq<(PyValue, seq<Dict>)>, p: Profile, target: int, b: nat)
    requires b < |bases|
    requires forall j :: 0 <= j < b ==> ProductError(bases[j], index, p, target).None?
    requires ProductError(bases[b], index, p, target).Some?
    ensures RunError(bases, index, p, target) == ProductError(bases[b], index, p, target)
  {
    var errs := seq(|bases|, i requires 0 <= i < |bases| => ProductError(bases[i], index, p, target));
    FirstRaisedAt(errs, b);
  }

  /** The candidates of a run are those of the products before `b`, then
      those of product `b`, then those of the products after it. */
  lemma AllCandidatesAround(bases: seq<Dict>, index: seq<(PyValue, seq<Dict>)>, p: Profile, target: int, b: nat)
    requires b < |bases|
    ensures AllCandidates(bases, index, p, target) == AllCandidates(bases[..b], index, p, target)
      + ProductCandidates(bases[b], index, p, target) + AllCandidates(bases[b + 1..], index, p, target)
  {
    assert bases[..b + 1][..b] == bases[..b] && bases[..b + 1][b] == bases[b];
    SplitAt(bases, b + 1);
    AllCandidatesAppend(bases[..b + 1], bases[b + 1..], index, p, target);
  }

  /** The candidates of each product are among those of the run. */
  lemma ProductInAll(bases: seq<Dict>, index: seq<(PyValue, seq<Dict>)>, p: Profile, target: int, b: nat)
    requires b < |bases|
    ensures forall c :: c in ProductCandidates(bases[b], index, p, target) ==> c in AllCandidates(bases, index, p, target)
  {
    AllCandidatesAround(bases, index, p, target, b);
  }

  /** What the recommender promises about its report: every product
      option that qualifies is counted; the best one is a candidate that no
      other candidate outranks on (score, net gain, rate); the alternatives
      are at most three further candidates, none ranked above the best and
      in non-increasing order; switching is advised exactly when the best
      one's net gain is positive; and the confidence is its score as a
      fraction, between 0 and 1. */
  lemma SwitchingProperties(form: FinanceForm, bases: seq<Dict>, opts: seq<Dict>)
    requires bases != [] && opts != []
    ensures var p := ProfileOf(form);
      var cands := AllCandidates(bases, Index(opts), p, TargetTerm(p));
      var s := Switching(form, bases, opts).value;
      && s.summary.recommendationCount == |cands|
      && (s.best.None? <==> cands == [])
      && (s.best.None? ==> s.summary.decision == TooFewProducts && s.alternatives == [])
      && (s.best.Some? ==>
            && s.best.value.candidate in cands
            && (forall c :: c in cands ==> !Gt(RankKey(c), RankKey(s.best.value.candidate)))
            && (s.best.value.action == SwitchAdvised <==> s.best.value.candidate.netGain > 0.0)
            && (s.summary.decision == ReviewSwitching <==> s.best.value.candidate.netGain > 0.0)
            && s.summary.confidence == s.best.value.candidate.matchScore as real / 100.0)
      && 0.0 <= s.summary.confidence <= 1.0
      && |s.alternatives| <= 3
      && (forall a :: a in s.alternatives ==> a in cands)
      && (s.best.Some? ==> forall a :: a in s.alternatives ==> !Gt(RankKey(a), RankKey(s.best.value.candidate)))
      && SortedDesc(s.alternatives, RankKey)
      && (cands != [] ==>
            && |s.alternatives| == MinInt(3, |cands| - 1)
            && (forall i :: 0 <= i < |s.alternatives| ==> s.alternatives[i] == SortDesc(cands, RankKey)[i + 1])
            && (forall c, a :: c in cands && c != s.best.value.candidate && c !in s.alternatives && a in s.alternatives ==>
                  !Gt(RankKey(c), RankKey(a))))
  {
    var p := ProfileOf(form);
    var cands := AllCandidates(bases, Index(opts), p, TargetTerm(p));
    var ranked := SortDesc(cands, RankKey);
    RankedFacts(cands);
    ReportProperties(form, p, ranked);
  }

  /** The ranking keeps the candidates, orders them and puts first one that
      no candidate outranks. */
  lemma RankedFacts(cands: seq<Candidate>)
    ensures var ranked := SortDesc(cands, RankKey);
      && |ranked| == |cands|
      && (forall c :: c in ranked <==> c in cands)
      && SortedDesc(ranked, RankKey)
      && (cands != [] ==> forall c :: c in cands ==> !Gt(RankKey(c), RankKey(ranked[0])))
  {
    var ranked := SortDesc(cands, RankKey);
    SortDescSorted(cands, RankKey);
    assert forall c :: c in ranked <==> c in cands by {
      assert forall c :: c in ranked <==> c in multiset(ranked);
    }
    if cands != [] {
      SortDescHead(cands, RankKey);
      FirstMaxIndexIsFirstMax(cands, RankKey);
      forall c | c in cands ensures !Gt(RankKey(c), RankKey(ranked[0])) {
        var j :| 0 <= j < |cands| && cands[j] == c;
      }
    }
  }

  /** The report on a ranked list: the first entry is the best, the
      alternatives are the next (at most three) in order, and the decision,
      the action and the confidence follow the best entry. */
  lemma ReportProperties(form: FinanceForm, p: Profile, ranked: seq<Candidate>)
    requires SortedDesc(ranked, RankKey)
    requires forall c :: c in ranked ==> 0 <= c.matchScore <= 100
    ensures var s := Report(form, p, ranked);
      && s.summary.recommendationCount == |ranked|
      && (s.best.None? <==> ranked == [])
      && (s.best.None? ==> s.summary.decision == TooFewProducts && s.alternatives == [] && s.summary.confidence == 0.0)
      && (s.best.Some? ==>
            && s.best.value.candidate == ranked[0]
            && (s.best.value.action == SwitchAdvised <==> ranked[0].netGain > 0.0)
            && (s.summary.decision == ReviewSwitching <==> ranked[0].netGain > 0.0)
            && s.summary.confidence == ranked[0].matchScore as real / 100.0
            && forall a :: a in s.alternatives ==> !Gt(RankKey(a), RankKey(ranked[0])))
      && 0.0 <= s.summary.confidence <= 1.0
      && |s.alternatives| <= 3
      && (forall a :: a in s.alternatives ==> a in ranked)
      && SortedDesc(s.alternatives, RankKey)
      && (ranked != [] ==>
            && |s.alternatives| == MinInt(3, |ranked| - 1)
            && (forall i :: 0 <= i < |s.alternatives| ==> s.alternatives[i] == ranked[i + 1])
            && (forall c, a :: c in ranked && c != ranked[0] && c !in s.alternatives && a in s.alternatives ==>
                  !Gt(RankKey(c), RankKey(a))))
  {
    if ranked != [] {
      assert ranked[0] in ranked;
      AlternativesFacts(ranked);
    }
  }

  /** The alternatives on a ranked list are its 2nd to 4th entries: in
      order, none above the first, and none below a candidate left out. */
  lemma AlternativesFacts(ranked: seq<Candidate>)
    requires ranked != [] && SortedDesc(ranked, RankKey)
    ensures var alts := ranked[1..MinInt(4, |ranked|)];
      && |alts| == MinInt(3, |ranked| - 1)
      && (forall i :: 0 <= i < |alts| ==> alts[i] == ranked[i + 1])
      && (forall a :: a in alts ==> a in ranked && !Gt(RankKey(a), RankKey(ranked[0])))
      && SortedDesc(alts, RankKey)
      && (forall c, a :: c in ranked && c != ranked[0] && c !in alts && a in alts ==> !Gt(RankKey(c), RankKey(a)))
  {
    AlternativesOutrankRest(ranked);
    var alts := ranked[1..MinInt(4, |ranked|)];
    forall a | a in alts ensures a in ranked && !Gt(RankKey(a), RankKey(ranked[0])) {
      var j :| 0 <= j < |alts| && alts[j] == a;
      assert a == ranked[j + 1];
    }
    forall i, j | 0 <= i < j < |alts| ensures !Gt(RankKey(alts[j]), RankKey(alts[i])) {
      assert alts[i] == ranked[i + 1] && alts[j] == ranked[j + 1];
    }
  }

  /** A candidate that is neither the best nor an alternative ranks no
      higher than any alternative. */
  lemma AlternativesOutrankRest(ranked: seq<Candidate>)
    requires ranked != [] && SortedDesc(ranked, RankKey)
    ensures var alts := ranked[1..MinInt(4, |ranked|)];
      forall c, a :: c in ranked && c != ranked[0] && c !in alts && a in alts ==> !Gt(RankKey(c), RankKey(a))
  {
    var alts := ranked[1..MinInt(4, |ranked|)];
    forall c, a | c in ranked && c != ranked[0] && c !in alts && a in alts ensures !Gt(RankKey(c), RankKey(a)) {
      var k :| 0 <= k < |ranked| && ranked[k] == c;
      var j :| 0 <= j < |alts| && alts[j] == a;
      assert a == ranked[j + 1];
    }
  }
}
