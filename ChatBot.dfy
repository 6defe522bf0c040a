/** The chat assistant's local intent handling and its message list: a
    message is read for a step to jump to and for figures of the asset
    form, the figures found are merged into the form, and the exchange with
    the reply service is tracked as user, summary and pending messages. */
module ChatBot {
  import opened Common
  import opened AssetInput
  import opened ChatScanner
  import App

  type Step = App.Step

  // ---------------------------------------------------------------------
  // Trigger words and keyword patterns
  // ---------------------------------------------------------------------

  /** `/(w1|w2|...)/.test(s)` for plain words. */
  predicate Mentions(s: string, words: seq<string>) {
    words != [] && (Contains(s, words[0]) || Mentions(s, words[1..]))
  }

  const ASSET_STEP_WORDS: seq<string> := ["자산", "처음"]
  const WELFARE_STEP_WORDS: seq<string> := ["복지", "추천"]
  const DSA_STEP_WORDS: seq<string> := ["dsa", "갈아", "비교"]

  const INCOME_WORDS: seq<string> := ["소득", "월급"]
  const HOUSEHOLD_WORDS: seq<string> := ["가구", "식구"]
  const REAL_ESTATE_WORDS: seq<string> := ["부동산"]
  const DEPOSIT_WORDS: seq<string> := ["예적금", "예금", "적금", "저축"]
  const OTHER_WORDS: seq<string> := ["기타"]
  const RATE_WORDS: seq<string> := ["금리", "이율"]
  const MONTHS_WORDS: seq<string> := ["만기", "개월", "기간"]
  const BALANCE_WORDS: seq<string> := ["잔액", "원금", "금액"]
  const SAVINGS_WORDS: seq<string> := ["적금", "예금", "저축"]
  const PENALTY_WORDS: seq<string> := ["위약", "페널티", "중도", "해지"]

  const INCOME_KW: Pattern := [Word("소득"), [Lit('월'), Spaces, Lit('수'), Lit('입')], Word("월급")]
  const HOUSEHOLD_KW: Pattern := [Word("가구"), Word("식구"), Word("가족")]
  const REAL_ESTATE_KW: Pattern := [Word("부동산"), Word("집값"), Word("주택")]
  const DEPOSIT_KW: Pattern := [Word("예적금"), Word("예금"), Word("적금"), Word("저축")]
  const OTHER_KW: Pattern := [Word("기타"), Word("기타 자산"), Word("추가 자산")]
  const RATE_KW: Pattern := [Word("금리"), Word("이율")]
  const MONTHS_KW: Pattern := [Word("만기"), Word("개월"), Word("기간")]
  const BALANCE_KW: Pattern := [Word("잔액"), Word("원금"), Word("금액")]
  const PENALTY_KW: Pattern := [Word("위약"), Word("페널티"), Word("중도"), Word("해지")]

  // ---------------------------------------------------------------------
  // The partial updates and their merge
  // ---------------------------------------------------------------------

  datatype Updates = Updates(
    monthlyIncome: Option<real>, householdSize: Option<real>, realEstate: Option<real>,
    deposits: Option<real>, otherAssets: Option<real>)

  datatype SavingsUpdates = SavingsUpdates(
    principal: Option<real>, annualRate: Option<real>, monthsRemaining: Option<real>,
    earlyTerminatePenaltyRate: Option<real>)

  const NO_UPDATES := Updates(None, None, None, None, None)
  const NO_SAVINGS_UPDATES := SavingsUpdates(None, None, None, None)

  function UpdateOf(u: Updates, f: Field): Option<real> {
    match f
    case MonthlyIncome => u.monthlyIncome
    case HouseholdSize => u.householdSize
    case RealEstate => u.realEstate
    case Deposits => u.deposits
    case OtherAssets => u.otherAssets
  }

  function SavingsUpdateOf(su: SavingsUpdates, f: SavingsField): Option<real> {
    match f
    case Principal => su.principal
    case AnnualRate => su.annualRate
    case MonthsRemaining => su.monthsRemaining
    case PenaltyRate => su.earlyTerminatePenaltyRate
  }

  predicate HasUpdates(u: Updates) {
    u.monthlyIncome.Some? || u.householdSize.Some? || u.realEstate.Some? || u.deposits.Some? || u.otherAssets.Some?
  }

  predicate HasSavingsUpdates(su: SavingsUpdates) {
    su.principal.Some? || su.annualRate.Some? || su.monthsRemaining.Some? || su.earlyTerminatePenaltyRate.Some?
  }

  /** `{...data, ...updates, savings: {...data.savings, ...savingsUpdates}}` */
  function Merge(d: AssetFormData, u: Updates, su: SavingsUpdates): (r: AssetFormData)
    ensures forall f :: Get(r, f) == OrElse(UpdateOf(u, f), Get(d, f))
    ensures forall f :: GetSv(r.savings, f) == OrElse(SavingsUpdateOf(su, f), GetSv(d.savings, f))
    ensures r.savings.productName == d.savings.productName && r.loans == d.loans
  {
    d.(monthlyIncome := OrElse(u.monthlyIncome, d.monthlyIncome),
       householdSize := OrElse(u.householdSize, d.householdSize),
       realEstate := OrElse(u.realEstate, d.realEstate),
       deposits := OrElse(u.deposits, d.deposits),
       otherAssets := OrElse(u.otherAssets, d.otherAssets),
       savings := d.savings.(
         principal := OrElse(su.principal, d.savings.principal),
         annualRate := OrElse(su.annualRate, d.savings.annualRate),
         monthsRemaining := OrElse(su.monthsRemaining, d.savings.monthsRemaining),
         earlyTerminatePenaltyRate := OrElse(su.earlyTerminatePenaltyRate, d.savings.earlyTerminatePenaltyRate)))
  }

  /** Merging the same updates twice changes nothing more. */
  lemma MergeIdempotent(d: AssetFormData, u: Updates, su: SavingsUpdates)
    ensures Merge(Merge(d, u, su), u, su) == Merge(d, u, su)
  {
  }

  // ---------------------------------------------------------------------
  // What a message asks for
  // ---------------------------------------------------------------------

  /** The step a message moves to: the later rules of the source override
      the earlier ones, so a DSA word wins over a welfare word, which wins
      over an asset word. */
  function StepFor(lowered: string): (r: Option<Step>)
    ensures Mentions(lowered, DSA_STEP_WORDS) ==> r == Some(2)
    ensures !Mentions(lowered, DSA_STEP_WORDS) && Mentions(lowered, WELFARE_STEP_WORDS) ==> r == Some(1)
    ensures !Mentions(lowered, DSA_STEP_WORDS) && !Mentions(lowered, WELFARE_STEP_WORDS)
      ==> r == (if Mentions(lowered, ASSET_STEP_WORDS) then Some(0) else None)
  {
    if Mentions(lowered, DSA_STEP_WORDS) then Some(2)
    else if Mentions(lowered, WELFARE_STEP_WORDS) then Some(1)
    else if Mentions(lowered, ASSET_STEP_WORDS) then Some(0)
    else None
  }

  function AsReal(n: Option<nat>): Option<real> {
    match n
    case Some(v) => Some(v as real)
    case None => None
  }

  /** A rate typed as a percentage (1 or more) is stored as a fraction. */
  function RateFrom(n: nat): real { if n >= 1 then n as real / 100.0 else n as real }

  /** The figures of the form a message sets, field by field. */
  function UpdatesFor(text: string): Updates {
    Updates(
      AmountUpdate(text, INCOME_WORDS, INCOME_KW),
      HouseholdUpdate(text),
      AmountUpdate(text, REAL_ESTATE_WORDS, REAL_ESTATE_KW),
      AmountUpdate(text, DEPOSIT_WORDS, DEPOSIT_KW),
      AmountUpdate(text, OTHER_WORDS, OTHER_KW))
  }

  /** An amount field: the figure nearest its keyword, when the message
      mentions the field. */
  function AmountUpdate(text: string, words: seq<string>, kw: Pattern): Option<real> {
    if Mentions(Lower(text), words) then AsReal(FindRelevantNumber(text, kw, false)) else None
  }

  /** The household size: the head count nearest a household word, at
      least 1. */
  function HouseholdUpdate(text: string): Option<real> {
    if Mentions(Lower(text), HOUSEHOLD_WORDS) then
      (match FindRelevantNumber(text, HOUSEHOLD_KW, true)
       case Some(n) => Some(MaxInt(1, JsRound(n as real)) as real)
       case None => None)
    else None
  }

  /** A rate or penalty figure: percentages (1 or more) become fractions. */
  function RateUpdate(text: string, words: seq<string>, kw: Pattern): Option<real> {
    if Mentions(Lower(text), words) then
      (match FindRelevantNumber(text, kw, false) case Some(n) => Some(RateFrom(n)) case None => None)
    else None
  }

  /** A number of months, rounded to a whole month. */
  function MonthsUpdate(text: string): Option<real> {
    if Mentions(Lower(text), MONTHS_WORDS) then
      (match FindRelevantNumber(text, MONTHS_KW, false) case Some(n) => Some(JsRound(n as real) as real) case None => None)
    else None
  }

  /** The balance, read only when a savings product is named too. */
  function PrincipalUpdate(text: string): Option<real> {
    var l := Lower(text);
    if Mentions(l, BALANCE_WORDS) && Mentions(l, SAVINGS_WORDS) then AsReal(FindRelevantNumber(text, BALANCE_KW, false)) else None
  }

  /** The fields of the savings product a message sets. */
  function SavingsUpdatesFor(text: string): SavingsUpdates {
    SavingsUpdates(PrincipalUpdate(text), RateUpdate(text, RATE_WORDS, RATE_KW), MonthsUpdate(text),
                   RateUpdate(text, PENALTY_WORDS, PENALTY_KW))
  }

  /** One sentence of the local summary, by what it reports. */
  datatype SummaryItem =
    | IncomeSet(income: real)
    | HouseholdSet(size: real)
    | RealEstateSet(realEstate: real)
    | DepositsSet(deposits: real)
    | OtherAssetsSet(otherAssets: real)
    | SavingsSet(principal: real, annualRate: real, monthsRemaining: real)
    | StepMoved(step: Step)

  /** `[x]` when `b` holds, else nothing. */
  function If<T>(b: bool, x: T): seq<T> { if b then [x] else [] }

  /** The sentences about the form fields, in the order they are pushed. */
  function FormItems(u: Updates, d: AssetFormData): seq<SummaryItem> {
    If(u.monthlyIncome.Some?, IncomeSet(d.monthlyIncome))
    + If(u.householdSize.Some?, HouseholdSet(d.householdSize))
    + If(u.realEstate.Some?, RealEstateSet(d.realEstate))
    + If(u.deposits.Some?, DepositsSet(d.deposits))
    + If(u.otherAssets.Some?, OtherAssetsSet(d.otherAssets))
  }

  /** The summary sentences: form fields, then the savings product, then
      the step moved to. */
  function SummaryFor(u: Updates, hasSavings: bool, d: AssetFormData, step: Option<Step>): seq<SummaryItem> {
    FormItems(u, d)
    + If(hasSavings, SavingsSet(d.savings.principal, d.savings.annualRate, d.savings.monthsRemaining))
    + (if step.Some? then [StepMoved(step.value)] else [])
  }

  /** The step rules of `processLocalIntent`, later rules overriding. */
  method ReadStep(lowered: string) returns (nextStep: Option<Step>)
    ensures nextStep == StepFor(lowered)
  {
    nextStep := None;
    if Mentions(lowered, ASSET_STEP_WORDS) { nextStep := Some(0); }
    if Mentions(lowered, WELFARE_STEP_WORDS) { nextStep := Some(1); }
    if Mentions(lowered, DSA_STEP_WORDS) { nextStep := Some(2); }
  }

  /** The form-field rules of `processLocalIntent`. */
  method ReadUpdates(text: string, lowered: string) returns (updates: Updates)
    requires lowered == Lower(text)
    ensures updates == UpdatesFor(text)
  {
    updates := NO_UPDATES;
    if Mentions(lowered, INCOME_WORDS) {
      var n := FindRelevantNumber(text, INCOME_KW, false);
      if n.Some? { updates := updates.(monthlyIncome := Some(n.value as real)); }
    }
    assert updates.monthlyIncome == AmountUpdate(text, INCOME_WORDS, INCOME_KW);
    if Mentions(lowered, HOUSEHOLD_WORDS) {
      var n := FindRelevantNumber(text, HOUSEHOLD_KW, true);
      if n.Some? { updates := updates.(householdSize := Some(MaxInt(1, JsRound(n.value as real)) as real)); }
    }
    assert updates.householdSize == HouseholdUpdate(text);
    if Mentions(lowered, REAL_ESTATE_WORDS) {
      var n := FindRelevantNumber(text, REAL_ESTATE_KW, false);
      if n.Some? { updates := updates.(realEstate := Some(n.value as real)); }
    }
    assert updates.realEstate == AmountUpdate(text, REAL_ESTATE_WORDS, REAL_ESTATE_KW);
    if Mentions(lowered, DEPOSIT_WORDS) {
      var n := FindRelevantNumber(text, DEPOSIT_KW, false);
      if n.Some? { updates := updates.(deposits := Some(n.value as real)); }
    }
    assert updates.deposits == AmountUpdate(text, DEPOSIT_WORDS, DEPOSIT_KW);
    if Mentions(lowered, OTHER_WORDS) {
      var n := FindRelevantNumber(text, OTHER_KW, false);
      if n.Some? { updates := updates.(otherAssets := Some(n.value as real)); }
    }
  }

  /** The savings rules of `processLocalIntent`; the flag records whether
      any of them fired. */
  method ReadSavingsUpdates(text: string, lowered: string) returns (su: SavingsUpdates, hasSavingsUpdate: bool)
    requires lowered == Lower(text)
    ensures su == SavingsUpdatesFor(text)
    ensures hasSavingsUpdate == HasSavingsUpdates(su)
  {
    su := NO_SAVINGS_UPDATES;
    hasSavingsUpdate := false;
    if Mentions(lowered, RATE_WORDS) {
      var n := FindRelevantNumber(text, RATE_KW, false);
      if n.Some? {
        su := su.(annualRate := Some(RateFrom(n.value)));
        hasSavingsUpdate := true;
      }
    }
    assert su.annualRate == RateUpdate(text, RATE_WORDS, RATE_KW);
    assert hasSavingsUpdate == su.annualRate.Some?;
    if Mentions(lowered, MONTHS_WORDS) {
      var n := FindRelevantNumber(text, MONTHS_KW, false);
      if n.Some? {
        su := su.(monthsRemaining := Some(JsRound(n.value as real) as real));
        hasSavingsUpdate := true;
      }
    }
    assert su.monthsRemaining == MonthsUpdate(text);
    assert hasSavingsUpdate == (su.annualRate.Some? || su.monthsRemaining.Some?);
    if Mentions(lowered, BALANCE_WORDS) && Mentions(lowered, SAVINGS_WORDS) {
      var n := FindRelevantNumber(text, BALANCE_KW, false);
      if n.Some? {
        su := su.(principal := Some(n.value as real));
        hasSavingsUpdate := true;
      }
    }
    assert su.principal == PrincipalUpdate(text);
    assert hasSavingsUpdate == (su.annualRate.Some? || su.monthsRemaining.Some? || su.principal.Some?);
    if Mentions(lowered, PENALTY_WORDS) {
      var n := FindRelevantNumber(text, PENALTY_KW, false);
      if n.Some? {
        su := su.(earlyTerminatePenaltyRate := Some(RateFrom(n.value)));
        hasSavingsUpdate := true;
      }
    }
  }

  /** The sentences pushed for the form fields that were set. */
  method FormSummary(u: Updates, d: AssetFormData) returns (items: seq<SummaryItem>)
    ensures items == FormItems(u, d)
  {
    ghost var a := If(u.monthlyIncome.Some?, IncomeSet(d.monthlyIncome));
    ghost var b := If(u.householdSize.Some?, HouseholdSet(d.householdSize));
    ghost var c := If(u.realEstate.Some?, RealEstateSet(d.realEstate));
    ghost var e := If(u.deposits.Some?, DepositsSet(d.deposits));
    items := [];
    if u.monthlyIncome.Some? { items := items + [IncomeSet(d.monthlyIncome)]; }
    assert items == a;
    if u.householdSize.Some? { items := items + [HouseholdSet(d.householdSize)]; }
    assert items == a + b;
    if u.realEstate.Some? { items := items + [RealEstateSet(d.realEstate)]; }
    assert items == a + b + c;
    if u.deposits.Some? { items := items + [DepositsSet(d.deposits)]; }
    assert items == a + b + c + e;
    if u.otherAssets.Some? { items := items + [OtherAssetsSet(d.otherAssets)]; }
  }

  /** The summary sentences pushed after a merge and a step change. */
  method BuildSummary(u: Updates, hasSavingsUpdate: bool, d: AssetFormData, nextStep: Option<Step>, merged: bool)
    returns (items: seq<SummaryItem>)
    ensures items == SummaryFor(if merged then u else NO_UPDATES, merged && hasSavingsUpdate, d, nextStep)
  {
    items := [];
    if merged {
      items := FormSummary(u, d);
      if hasSavingsUpdate {
        items := items + [SavingsSet(d.savings.principal, d.savings.annualRate, d.savings.monthsRemaining)];
      }
    }
    if nextStep.Some? {
      items := items + [StepMoved(nextStep.value)];
    }
  }

  /** What a message does locally: the form after it, the step to move
      to, and the summary sentences (none when nothing was recognised). */
  datatype Intent = Intent(data: AssetFormData, step: Option<Step>, summary: Option<seq<SummaryItem>>)

  /** The intent made of the fields read, the step found and the form. */
  function IntentOf(u: Updates, su: SavingsUpdates, step: Option<Step>, data: AssetFormData): Intent {
    var d := if HasUpdates(u) || HasSavingsUpdates(su) then Merge(data, u, su) else data;
    var items := SummaryFor(u, HasSavingsUpdates(su), d, step);
    Intent(d, step, if items == [] then None else Some(items))
  }

  function IntentFor(text: string, data: AssetFormData): Intent {
    IntentOf(UpdatesFor(text), SavingsUpdatesFor(text), StepFor(Lower(text)), data)
  }

  /** `processLocalIntent`. */
  method ProcessLocalIntent(text: string, data: AssetFormData)
    returns (newData: AssetFormData, nextStep: Option<Step>, summary: Option<seq<SummaryItem>>)
    ensures Intent(newData, nextStep, summary) == IntentFor(text, data)
  {
    var lowered := Lower(text);
    nextStep := ReadStep(lowered);
    var updates := ReadUpdates(text, lowered);
    var savingsUpdates, hasSavingsUpdate := ReadSavingsUpdates(text, lowered);
    var merged := HasUpdates(updates) || hasSavingsUpdate;
    newData := if merged then Merge(data, updates, savingsUpdates) else data;
    var items := BuildSummary(updates, hasSavingsUpdate, newData, nextStep, merged);
    assert !merged ==> updates == NO_UPDATES;
    summary := if items == [] then None else Some(items);
  }

  // ---------------------------------------------------------------------
  // Properties of the local intent
  // ---------------------------------------------------------------------

  /** Which step a message moves to, both ways round. */
  lemma StepForIff(lowered: string)
    ensures StepFor(lowered) == Some(2) <==> Mentions(lowered, DSA_STEP_WORDS)
    ensures StepFor(lowered) == Some(1) <==>
      !Mentions(lowered, DSA_STEP_WORDS) && Mentions(lowered, WELFARE_STEP_WORDS)
    ensures StepFor(lowered) == Some(0) <==>
      !Mentions(lowered, DSA_STEP_WORDS) && !Mentions(lowered, WELFARE_STEP_WORDS) && Mentions(lowered, ASSET_STEP_WORDS)
    ensures StepFor(lowered).None? <==>
      !Mentions(lowered, DSA_STEP_WORDS) && !Mentions(lowered, WELFARE_STEP_WORDS) && !Mentions(lowered, ASSET_STEP_WORDS)
  {
  }

  /** There is a summary exactly when a field was set or a step was found. */
  lemma SummaryEmptyIff(u: Updates, hasSavings: bool, d: AssetFormData, step: Option<Step>)
    ensures SummaryFor(u, hasSavings, d, step) == [] <==> !HasUpdates(u) && !hasSavings && step.None?
  {
    if HasUpdates(u) {
      var f := FormItems(u, d);
      assert |f| > 0;
    }
  }

  /** The form changes only in the fields the message set, each to the
      value read; the savings product keeps its name and the loans stay. A
      message with nothing recognised leaves the form as it was and has no
      summary. */
  lemma IntentTouchesOnlyUpdated(text: string, data: AssetFormData)
    ensures var r, u, su := IntentFor(text, data), UpdatesFor(text), SavingsUpdatesFor(text);
      (forall f :: Get(r.data, f) == OrElse(UpdateOf(u, f), Get(data, f)))
      && (forall f :: GetSv(r.data.savings, f) == OrElse(SavingsUpdateOf(su, f), GetSv(data.savings, f)))
      && r.data.savings.productName == data.savings.productName && r.data.loans == data.loans
    ensures IntentFor(text, data).summary.None? <==>
      !HasUpdates(UpdatesFor(text)) && !HasSavingsUpdates(SavingsUpdatesFor(text)) && StepFor(Lower(text)).None?
    ensures IntentFor(text, data).summary.None? ==> IntentFor(text, data).data == data
  {
    var r, u, su := IntentFor(text, data), UpdatesFor(text), SavingsUpdatesFor(text);
    SummaryEmptyIff(u, HasSavingsUpdates(su), r.data, r.step);
    if !(HasUpdates(u) || HasSavingsUpdates(su)) {
      assert forall f :: UpdateOf(u, f).None?;
      assert forall f :: SavingsUpdateOf(su, f).None?;
    }
  }

  /** Handling a message twice leaves the form as handling it once. */
  lemma IntentIdempotent(text: string, data: AssetFormData)
    ensures IntentFor(text, IntentFor(text, data).data).data == IntentFor(text, data).data
  {
    MergeIdempotent(data, UpdatesFor(text), SavingsUpdatesFor(text));
  }

  /** A household size read from a message is a whole number of at least 1. */
  lemma HouseholdAtLeastOne(text: string)
    ensures UpdatesFor(text).householdSize.Some? ==>
      UpdatesFor(text).householdSize.value >= 1.0
      && UpdatesFor(text).householdSize.value == UpdatesFor(text).householdSize.value.Floor as real
  {
  }

  /** A rate or penalty of 1 or more is a percentage and becomes the
      fraction a hundred times smaller; the result is below 1 exactly when
      the number read was below 100. */
  lemma RateFromPercent(n: nat)
    ensures n >= 1 ==> RateFrom(n) * 100.0 == n as real
    ensures n < 1 ==> RateFrom(n) == 0.0
    ensures RateFrom(n) < 1.0 <==> n < 100
  {
  }

  /** Rounding the months read is a no-op: matches are whole numbers. */
  lemma MonthsAsRead(text: string)
    ensures MonthsUpdate(text) ==
      if Mentions(Lower(text), MONTHS_WORDS) then AsReal(FindRelevantNumber(text, MONTHS_KW, false)) else None
  {
    var n := FindRelevantNumber(text, MONTHS_KW, false);
    if n.Some? { JsRoundOfInt(n.value); }
  }

  // ---------------------------------------------------------------------
  // Concrete messages
  // ---------------------------------------------------------------------

  /** A message without upper-case ASCII letters is its own lower case. */
  lemma LowerKeeps(s: string)
    requires forall i :: 0 <= i < |s| ==> !('A' <= s[i] <= 'Z')
    ensures Lower(s) == s
  {
  }

  /** No trigger word occurs when each lacks a character of the text. */
  lemma {:induction false} NotMentioned(s: string, words: seq<string>, missing: seq<char>)
    requires |missing| == |words|
    requires forall i :: 0 <= i < |words| ==> missing[i] in words[i] && missing[i] !in s
    ensures !Mentions(s, words)
    decreases |words|
  {
    if words != [] {
      MissingChar(s, words[0], missing[0]);
      NotMentioned(s, words[1..], missing[1..]);
    }
  }

  predicate UpperFree(t: string) {
    forall i :: 0 <= i < |t| ==> !('A' <= t[i] <= 'Z')
  }

  /** None of `chars` occurs in `t`. */
  predicate Lacks(t: string, chars: string) {
    forall ch :: ch in chars ==> ch !in t
  }

  /** One character of each step word, of each savings word, and of each
      real-estate, deposit and other-asset word. */
  const STEP_CHARS := "자처복추d갈비"
  const SAVINGS_CHARS := "금율기개잔위페중지"
  const ASSET_CHARS := "부예적저기"

  /** Messages without any character of the step words stay on the step. */
  lemma NoStep(t: string)
    requires UpperFree(t)
    requires Lacks(t, STEP_CHARS)
    ensures StepFor(Lower(t)) == None
  {
    assert '자' !in t && '처' !in t && '복' !in t && '추' !in t && 'd' !in t && '갈' !in t && '비' !in t;
    LowerKeeps(t);
    NotMentioned(t, ASSET_STEP_WORDS, ['자', '처']);
    NotMentioned(t, WELFARE_STEP_WORDS, ['복', '추']);
    NotMentioned(t, DSA_STEP_WORDS, ['d', '갈', '비']);
  }

  /** Messages lacking these characters set no savings field. */
  lemma NoSavingsUpdates(t: string)
    requires UpperFree(t)
    requires Lacks(t, SAVINGS_CHARS)
    ensures SavingsUpdatesFor(t) == NO_SAVINGS_UPDATES
  {
    assert '금' !in t && '율' !in t && '기' !in t && '개' !in t && '잔' !in t;
    assert '위' !in t && '페' !in t && '중' !in t && '지' !in t;
    LowerKeeps(t);
    NotMentioned(t, RATE_WORDS, ['금', '율']);
    NotMentioned(t, MONTHS_WORDS, ['기', '개', '기']);
    NotMentioned(t, BALANCE_WORDS, ['잔', '금', '금']);
    NotMentioned(t, PENALTY_WORDS, ['위', '페', '중', '지']);
  }

  /** Messages lacking these characters name no asset amount. */
  lemma NoAssetWords(t: string)
    requires Lacks(t, ASSET_CHARS)
    ensures !Mentions(t, REAL_ESTATE_WORDS) && !Mentions(t, DEPOSIT_WORDS) && !Mentions(t, OTHER_WORDS)
  {
    assert '부' !in t && '예' !in t && '적' !in t && '저' !in t && '기' !in t;
    NotMentioned(t, REAL_ESTATE_WORDS, ['부']);
    NotMentioned(t, DEPOSIT_WORDS, ['예', '예', '적', '저']);
    NotMentioned(t, OTHER_WORDS, ['기']);
  }

  /** A message naming the income and no other form field sets only the
      income. */
  lemma OnlyIncome(t: string)
    requires UpperFree(t) && Mentions(t, INCOME_WORDS)
    requires '가' !in t && '식' !in t && Lacks(t, ASSET_CHARS)
    ensures UpdatesFor(t) == NO_UPDATES.(monthlyIncome := AsReal(FindRelevantNumber(t, INCOME_KW, false)))
  {
    LowerKeeps(t);
    NotMentioned(t, HOUSEHOLD_WORDS, ['가', '식']);
    NoAssetWords(t);
  }

  /** A message naming no form field but the household, with no head count
      in it, sets nothing. */
  lemma NoHeadCount(t: string)
    requires UpperFree(t) && FindRelevantNumber(t, HOUSEHOLD_KW, true).None?
    requires '소' !in t && '급' !in t && Lacks(t, ASSET_CHARS)
    ensures UpdatesFor(t) == NO_UPDATES
  {
    LowerKeeps(t);
    NotMentioned(t, INCOME_WORDS, ['소', '급']);
    NoAssetWords(t);
  }

  /** The intent of a message that sets only form fields and names no step. */
  lemma IntentOfFormUpdates(u: Updates, data: AssetFormData)
    ensures var d := if HasUpdates(u) then Merge(data, u, NO_SAVINGS_UPDATES) else data;
      IntentOf(u, NO_SAVINGS_UPDATES, None, data) == Intent(d, None, if HasUpdates(u) then Some(FormItems(u, d)) else None)
  {
    var d := if HasUpdates(u) then Merge(data, u, NO_SAVINGS_UPDATES) else data;
    SummaryEmptyIff(u, false, d, None);
    assert SummaryFor(u, false, d, None) == FormItems(u, d);
  }

  /** Setting the income alone changes the income alone. */
  lemma MergeIncomeOnly(data: AssetFormData, income: real)
    ensures Merge(data, NO_UPDATES.(monthlyIncome := Some(income)), NO_SAVINGS_UPDATES) == data.(monthlyIncome := income)
  {
    var m := Merge(data, NO_UPDATES.(monthlyIncome := Some(income)), NO_SAVINGS_UPDATES);
    assert m.savings == data.savings;
  }

  /** Setting the income alone, with no step, is reported as just that. */
  lemma IncomeOnlyIntent(data: AssetFormData, income: real)
    ensures IntentOf(NO_UPDATES.(monthlyIncome := Some(income)), NO_SAVINGS_UPDATES, None, data) ==
      Intent(data.(monthlyIncome := income), None, Some([IncomeSet(income)]))
  {
    var u := NO_UPDATES.(monthlyIncome := Some(income));
    IntentOfFormUpdates(u, data);
    MergeIncomeOnly(data, income);
    assert FormItems(u, data.(monthlyIncome := income)) == [IncomeSet(income)];
  }

  const INCOME_QUICK_TEXT := "월 소득 300만원으로 계산해줘"
  const HOUSEHOLD_QUICK_TEXT := "가구원 3명이고요"

  lemma IncomeQuickCandidates()
    ensures Candidates(INCOME_QUICK_TEXT) == [NumericCandidate(3_000_000, 300, 5, 9, Some('만'))]
  {
    var t := INCOME_QUICK_TEXT;
    IncomeQuickNonDigits();
    ScanSkip(t, 0, 5);
    ScanSkip(t, 9, 17);
    IncomeQuickCandidateAt();
    assert ScanFrom(t, 5) == [CandidateAt(t, 5)] + ScanFrom(t, 9);
  }

  lemma IncomeQuickNonDigits()
    ensures |INCOME_QUICK_TEXT| == 17
    ensures forall k :: 0 <= k < 5 ==> !IsDigit(INCOME_QUICK_TEXT[k])
    ensures forall k :: 9 <= k < 17 ==> !IsDigit(INCOME_QUICK_TEXT[k])
  {
  }

  lemma IncomeQuickCandidateAt()
    ensures IsDigit(INCOME_QUICK_TEXT[5])
    ensures CandidateAt(INCOME_QUICK_TEXT, 5) == NumericCandidate(3_000_000, 300, 5, 9, Some('만'))
  {
    var t := INCOME_QUICK_TEXT;
    assert RunEnd(t, 6) == 8;
    assert t[5..8] == "300";
    ThreeHundred();
  }

  lemma ThreeHundred()
    ensures DigitsValue("300") == 300
  {
    assert DigitsValue("3") == 3;
    assert "300"[..2] == "30" && "30"[..1] == "3";
    assert DigitsValue("30") == 30;
  }

  lemma IncomeQuickPlain()
    ensures forall ch :: ch in "세살나학이년명인" ==> ch !in INCOME_QUICK_TEXT
  {
  }

  lemma IncomeQuickFigure()
    ensures FindRelevantNumber(INCOME_QUICK_TEXT, INCOME_KW, false) == Some(3_000_000)
  {
    var c := NumericCandidate(3_000_000, 300, 5, 9, Some('만'));
    IncomeQuickCandidates();
    IncomeQuickPlain();
    PlainContext(INCOME_QUICK_TEXT, c);
    FindOnly(INCOME_QUICK_TEXT, INCOME_KW, false, c);
  }

  lemma IncomeQuickMentionsIncome()
    ensures Mentions(INCOME_QUICK_TEXT, INCOME_WORDS)
  {
    var t := INCOME_QUICK_TEXT;
    assert t[2..4] == "소득";
    ContainsAt(t, "소득", 2);
  }

  lemma IncomeQuickChars()
    ensures UpperFree(INCOME_QUICK_TEXT) && '가' !in INCOME_QUICK_TEXT && '식' !in INCOME_QUICK_TEXT
    ensures Lacks(INCOME_QUICK_TEXT, ASSET_CHARS)
  {
    IncomeQuickUpperFree();
    IncomeQuickNoAssetChars();
  }

  lemma IncomeQuickUpperFree()
    ensures UpperFree(INCOME_QUICK_TEXT)
  {
  }

  lemma IncomeQuickNoAssetChars()
    ensures forall ch :: ch in "가식부예적저기" ==> ch !in INCOME_QUICK_TEXT
  {
  }

  lemma IncomeQuickLacksSavingsAndStep()
    ensures Lacks(INCOME_QUICK_TEXT, STEP_CHARS) && Lacks(INCOME_QUICK_TEXT, SAVINGS_CHARS)
  {
    IncomeQuickLacksStep();
    IncomeQuickLacksSavings();
  }

  lemma IncomeQuickLacksStep()
    ensures Lacks(INCOME_QUICK_TEXT, STEP_CHARS)
  {
    IncomeQuickNoStepChars();
  }

  lemma IncomeQuickNoStepChars()
    ensures forall ch :: ch in "자처복추d갈비" ==> ch !in INCOME_QUICK_TEXT
  {
  }

  lemma IncomeQuickLacksSavings()
    ensures Lacks(INCOME_QUICK_TEXT, SAVINGS_CHARS)
  {
    IncomeQuickNoSavingsChars();
  }

  lemma IncomeQuickNoSavingsChars()
    ensures forall ch :: ch in "금율기개잔위페중지" ==> ch !in INCOME_QUICK_TEXT
  {
  }

  lemma IncomeQuickShape()
    ensures UpdatesFor(INCOME_QUICK_TEXT) ==
      NO_UPDATES.(monthlyIncome := AsReal(FindRelevantNumber(INCOME_QUICK_TEXT, INCOME_KW, false)))
  {
    IncomeQuickChars();
    IncomeQuickMentionsIncome();
    OnlyIncome(INCOME_QUICK_TEXT);
  }

  lemma IncomeQuickUpdates()
    ensures UpdatesFor(INCOME_QUICK_TEXT) == NO_UPDATES.(monthlyIncome := Some(3_000_000.0))
  {
    IncomeQuickShape();
    IncomeQuickFigure();
  }

  lemma IncomeQuickRest()
    ensures SavingsUpdatesFor(INCOME_QUICK_TEXT) == NO_SAVINGS_UPDATES
    ensures StepFor(Lower(INCOME_QUICK_TEXT)) == None
  {
    IncomeQuickChars();
    IncomeQuickLacksSavingsAndStep();
    NoSavingsUpdates(INCOME_QUICK_TEXT);
    NoStep(INCOME_QUICK_TEXT);
  }

  /** The quick action "월 소득 300만원" sets the monthly income to
      3 000 000 won and nothing else, and reports just that. */
  lemma IncomeQuickAction(data: AssetFormData)
    ensures IntentFor(INCOME_QUICK_TEXT, data) ==
      Intent(data.(monthlyIncome := 3_000_000.0), None, Some([IncomeSet(3_000_000.0)]))
  {
    IncomeQuickUpdates();
    IncomeQuickRest();
    IncomeOnlyIntent(data, 3_000_000.0);
  }

  lemma HouseholdQuickCandidates()
    ensures Candidates(HOUSEHOLD_QUICK_TEXT) == [NumericCandidate(3, 3, 4, 6, Some('명'))]
  {
    var t := HOUSEHOLD_QUICK_TEXT;
    ScanSkip(t, 0, 4);
    ScanSkip(t, 6, 9);
    HouseholdQuickCandidateAt();
    assert ScanFrom(t, 4) == [CandidateAt(t, 4)] + ScanFrom(t, 6);
  }

  lemma HouseholdQuickCandidateAt()
    ensures IsDigit(HOUSEHOLD_QUICK_TEXT[4])
    ensures CandidateAt(HOUSEHOLD_QUICK_TEXT, 4) == NumericCandidate(3, 3, 4, 6, Some('명'))
  {
    var t := HOUSEHOLD_QUICK_TEXT;
    assert RunEnd(t, 5) == 5;
    assert t[4..5] == "3";
    assert DigitsValue("3") == 3;
  }

  /** The 명 of "3명" belongs to the match itself, so the two characters
      after it are "이고" and the two before it "원 ": no head-count hint. */
  lemma HouseholdQuickNotPerson()
    ensures !IsPersonContext(HOUSEHOLD_QUICK_TEXT, NumericCandidate(3, 3, 4, 6, Some('명')))
  {
    var t := HOUSEHOLD_QUICK_TEXT;
    assert JsSlice(t, 6, 8) == "이고";
    assert JsSlice(t, 2, 4) == "원 ";
    NotPersonContext(t, NumericCandidate(3, 3, 4, 6, Some('명')));
  }

  lemma HouseholdQuickNoHeadCount()
    ensures FindRelevantNumber(HOUSEHOLD_QUICK_TEXT, HOUSEHOLD_KW, true).None?
  {
    HouseholdQuickCandidates();
    HouseholdQuickNotPerson();
    FindOnly(HOUSEHOLD_QUICK_TEXT, HOUSEHOLD_KW, true, NumericCandidate(3, 3, 4, 6, Some('명')));
  }

  lemma HouseholdQuickChars()
    ensures UpperFree(HOUSEHOLD_QUICK_TEXT) && '소' !in HOUSEHOLD_QUICK_TEXT && '급' !in HOUSEHOLD_QUICK_TEXT
    ensures Lacks(HOUSEHOLD_QUICK_TEXT, ASSET_CHARS)
  {
    HouseholdQuickUpperFree();
    HouseholdQuickNoAssetChars();
  }

  lemma HouseholdQuickUpperFree()
    ensures UpperFree(HOUSEHOLD_QUICK_TEXT)
  {
  }

  lemma HouseholdQuickNoAssetChars()
    ensures forall ch :: ch in "소급부예적저기" ==> ch !in HOUSEHOLD_QUICK_TEXT
  {
  }

  lemma HouseholdQuickLacksSavingsAndStep()
    ensures Lacks(HOUSEHOLD_QUICK_TEXT, STEP_CHARS) && Lacks(HOUSEHOLD_QUICK_TEXT, SAVINGS_CHARS)
  {
    HouseholdQuickNoStepChars();
    HouseholdQuickNoSavingsChars();
  }

  lemma HouseholdQuickNoStepChars()
    ensures forall ch :: ch in "자처복추d갈비" ==> ch !in HOUSEHOLD_QUICK_TEXT
  {
  }

  lemma HouseholdQuickNoSavingsChars()
    ensures forall ch :: ch in "금율기개잔위페중지" ==> ch !in HOUSEHOLD_QUICK_TEXT
  {
  }

  lemma HouseholdQuickUpdates()
    ensures UpdatesFor(HOUSEHOLD_QUICK_TEXT) == NO_UPDATES
  {
    HouseholdQuickChars();
    HouseholdQuickNoHeadCount();
    NoHeadCount(HOUSEHOLD_QUICK_TEXT);
  }

  lemma HouseholdQuickRest()
    ensures SavingsUpdatesFor(HOUSEHOLD_QUICK_TEXT) == NO_SAVINGS_UPDATES
    ensures StepFor(Lower(HOUSEHOLD_QUICK_TEXT)) == None
  {
    HouseholdQuickChars();
    HouseholdQuickLacksSavingsAndStep();
    NoSavingsUpdates(HOUSEHOLD_QUICK_TEXT);
    NoStep(HOUSEHOLD_QUICK_TEXT);
  }

  /** As written, the quick action "가구원 3명" changes nothing: the only
      number is not seen as a head count, so no field is set, no step is
      found and there is no summary. */
  lemma HouseholdQuickActionAsWritten(data: AssetFormData)
    ensures IntentFor(HOUSEHOLD_QUICK_TEXT, data) == Intent(data, None, None)
  {
    HouseholdQuickUpdates();
    HouseholdQuickRest();
    IntentOfFormUpdates(NO_UPDATES, data);
  }

  // ---------------------------------------------------------------------
  // Counts and rates read as money
  // ---------------------------------------------------------------------

  const MONTHS_SAMPLE := "8개월"
  const RATE_SAMPLE := "금리 3%"

  lemma MonthsSampleCandidates()
    ensures Candidates(MONTHS_SAMPLE) == [NumericCandidate(8, 8, 0, 2, Some('개'))]
  {
  }

  lemma RateSampleCandidates()
    ensures Candidates(RATE_SAMPLE) == [NumericCandidate(3, 3, 3, 5, Some('%'))]
  {
    ScanSkip(RATE_SAMPLE, 0, 3);
  }

  lemma MonthsSampleNotAge()
    ensures !IsAgeContext(MONTHS_SAMPLE, NumericCandidate(8, 8, 0, 2, Some('개')))
  {
    var t, c := MONTHS_SAMPLE, NumericCandidate(8, 8, 0, 2, Some('개'));
    assert JsSlice(t, 2, 5) == "월";
    assert JsSlice(t, 0, 0) == "";
    assert Around(t, c) == t;
    NotAgeContext(t, c);
  }

  lemma MonthsSampleNotPerson()
    ensures !IsPersonContext(MONTHS_SAMPLE, NumericCandidate(8, 8, 0, 2, Some('개')))
  {
    var t, c := MONTHS_SAMPLE, NumericCandidate(8, 8, 0, 2, Some('개'));
    assert JsSlice(t, 2, 4) == "월";
    assert JsSlice(t, 0, 0) == "";
    NotPersonContext(t, c);
  }

  lemma MonthsSampleEligible()
    ensures Eligible(MONTHS_SAMPLE, NumericCandidate(8, 8, 0, 2, Some('개')), false)
  {
    MonthsSampleNotAge();
    MonthsSampleNotPerson();
  }

  lemma RateSampleNotAge()
    ensures !IsAgeContext(RATE_SAMPLE, NumericCandidate(3, 3, 3, 5, Some('%')))
  {
    var t, c := RATE_SAMPLE, NumericCandidate(3, 3, 3, 5, Some('%'));
    assert JsSlice(t, 5, 8) == "";
    assert JsSlice(t, 0, 3) == "금리 ";
    assert Around(t, c) == t;
    NotAgeContext(t, c);
  }

  lemma RateSampleNotPerson()
    ensures !IsPersonContext(RATE_SAMPLE, NumericCandidate(3, 3, 3, 5, Some('%')))
  {
    var t, c := RATE_SAMPLE, NumericCandidate(3, 3, 3, 5, Some('%'));
    assert JsSlice(t, 5, 7) == "";
    assert JsSlice(t, 1, 3) == "리 ";
    NotPersonContext(t, c);
  }

  lemma RateSampleEligible()
    ensures Eligible(RATE_SAMPLE, NumericCandidate(3, 3, 3, 5, Some('%')), false)
  {
    RateSampleNotAge();
    RateSampleNotPerson();
  }

  /** Neither 개 nor % is a unit of money, so the bare digits are taken
      for 만원. */
  lemma SamplesNormalized()
    ensures NormalizeCurrency(NumericCandidate(8, 8, 0, 2, Some('개'))) == 80_000
    ensures NormalizeCurrency(NumericCandidate(3, 3, 3, 5, Some('%'))) == 30_000
  {
    assert '개' !in CURRENCY_HINTS && '%' !in CURRENCY_HINTS;
  }

  lemma MonthsSampleMentioned()
    ensures Lower(MONTHS_SAMPLE) == MONTHS_SAMPLE && Mentions(MONTHS_SAMPLE, MONTHS_WORDS)
  {
    LowerKeeps(MONTHS_SAMPLE);
    assert MONTHS_SAMPLE[1..3] == "개월";
    ContainsAt(MONTHS_SAMPLE, "개월", 1);
  }

  lemma RateSampleMentioned()
    ensures Lower(RATE_SAMPLE) == RATE_SAMPLE && Mentions(RATE_SAMPLE, RATE_WORDS)
  {
    LowerKeeps(RATE_SAMPLE);
    assert RATE_SAMPLE[0..2] == "금리";
    ContainsAt(RATE_SAMPLE, "금리", 0);
  }

  /** The months rule keeps a whole number as it was picked. */
  lemma MonthsAsPicked(t: string, n: nat)
    requires Lower(t) == t && Mentions(t, MONTHS_WORDS)
    requires FindRelevantNumber(t, MONTHS_KW, false) == Some(n)
    ensures MonthsUpdate(t) == Some(n as real)
  {
    JsRoundOfInt(n);
  }

  lemma MonthsSampleFigure()
    ensures FindRelevantNumber(MONTHS_SAMPLE, MONTHS_KW, false) == Some(80_000)
  {
    MonthsSampleCandidates();
    MonthsSampleEligible();
    SamplesNormalized();
    FindOnly(MONTHS_SAMPLE, MONTHS_KW, false, NumericCandidate(8, 8, 0, 2, Some('개')));
  }

  /** As written, "8개월" is read as 80 000 months: the bare 8 is taken
      for 8만원. */
  lemma MonthsSampleAsWritten()
    ensures MonthsUpdate(MONTHS_SAMPLE) == Some(80_000.0)
  {
    MonthsSampleFigure();
    MonthsSampleMentioned();
    MonthsAsPicked(MONTHS_SAMPLE, 80_000);
  }

  /** The rate rule turns a whole number of percent into a fraction. */
  lemma RateAsPicked(t: string, words: seq<string>, kw: Pattern, n: nat)
    requires Lower(t) == t && Mentions(t, words)
    requires FindRelevantNumber(t, kw, false) == Some(n)
    ensures RateUpdate(t, words, kw) == Some(RateFrom(n))
  {
  }

  lemma RateSampleFigure()
    ensures FindRelevantNumber(RATE_SAMPLE, RATE_KW, false) == Some(30_000)
  {
    RateSampleCandidates();
    RateSampleEligible();
    SamplesNormalized();
    FindOnly(RATE_SAMPLE, RATE_KW, false, NumericCandidate(3, 3, 3, 5, Some('%')));
  }

  /** As written, "금리 3%" sets an annual rate of 300 (30 000 %). */
  lemma RateSampleAsWritten()
    ensures RateUpdate(RATE_SAMPLE, RATE_WORDS, RATE_KW) == Some(300.0)
  {
    RateSampleFigure();
    RateSampleMentioned();
    RateAsPicked(RATE_SAMPLE, RATE_WORDS, RATE_KW, 30_000);
  }

  /** The number as written, with its unit applied: the reading for the
      fields that are not amounts of money. */
  function WrittenValue(c: NumericCandidate): nat { c.value }

  /** The number picker for counts and rates: the same candidate as
      `findRelevantNumber`, read without the 만원 scaling. */
  function FindCount(text: string, keyword: Pattern): Option<nat> {
    Pick(text, keyword, EligibleIn(text, false), WrittenValue)
  }

  /** The rate and penalty rule over the corrected picker. */
  function CorrectedRateUpdate(text: string, words: seq<string>, kw: Pattern): Option<real> {
    if Mentions(Lower(text), words) then
      (match FindCount(text, kw) case Some(n) => Some(RateFrom(n)) case None => None)
    else None
  }

  /** The months rule over the corrected picker. */
  function CorrectedMonthsUpdate(text: string): Option<real> {
    if Mentions(Lower(text), MONTHS_WORDS) then
      (match FindCount(text, MONTHS_KW) case Some(n) => Some(JsRound(n as real) as real) case None => None)
    else None
  }

  /** Two nearest candidates are the same candidate. */
  lemma NearestUnique(text: string, keyword: Pattern, keep: NumericCandidate -> bool, c: NumericCandidate, d: NumericCandidate)
    requires IsNearest(text, keyword, keep, c) && IsNearest(text, keyword, keep, d)
    ensures c == d
  {
    ScanFromMatches(text, 0);
    CandidateEqual(text, c, d);
  }

  /** The corrected picker and `findRelevantNumber` pick the same
      candidate; the corrected one reports the number as written, the
      original its money reading (10 000 times a bare number below 1000). */
  lemma CountVersusAmount(text: string, keyword: Pattern)
    ensures FindCount(text, keyword).None? <==> FindRelevantNumber(text, keyword, false).None?
    ensures FindCount(text, keyword).Some? ==>
      exists c :: IsNearest(text, keyword, EligibleIn(text, false), c)
        && FindCount(text, keyword).value == c.value
        && FindRelevantNumber(text, keyword, false).value == NormalizeCurrency(c)
  {
    var keep := EligibleIn(text, false);
    PickChoice(text, keyword, keep, WrittenValue);
    PickChoice(text, keyword, keep, NormalizedAs(false));
    if FindCount(text, keyword).Some? {
      var c :| IsNearest(text, keyword, keep, c) && FindCount(text, keyword).value == WrittenValue(c);
      var d :| IsNearest(text, keyword, keep, d)
        && FindRelevantNumber(text, keyword, false).value == NormalizedAs(false)(d);
      NearestUnique(text, keyword, keep, c, d);
    }
  }

  lemma MonthsSampleCount()
    ensures FindCount(MONTHS_SAMPLE, MONTHS_KW) == Some(8)
  {
    var c := NumericCandidate(8, 8, 0, 2, Some('개'));
    MonthsSampleCandidates();
    MonthsSampleEligible();
    PickOnly(MONTHS_SAMPLE, MONTHS_KW, EligibleIn(MONTHS_SAMPLE, false), WrittenValue, c);
  }

  lemma RateSampleCount()
    ensures FindCount(RATE_SAMPLE, RATE_KW) == Some(3)
  {
    var c := NumericCandidate(3, 3, 3, 5, Some('%'));
    RateSampleCandidates();
    RateSampleEligible();
    PickOnly(RATE_SAMPLE, RATE_KW, EligibleIn(RATE_SAMPLE, false), WrittenValue, c);
  }

  /** Corrected, "8개월" is 8 months. */
  lemma MonthsSampleCorrected()
    ensures CorrectedMonthsUpdate(MONTHS_SAMPLE) == Some(8.0)
  {
    MonthsSampleCount();
    MonthsSampleMentioned();
    JsRoundOfInt(8);
  }

  /** Corrected, "금리 3%" is an annual rate of 0.03. */
  lemma RateSampleCorrected()
    ensures CorrectedRateUpdate(RATE_SAMPLE, RATE_WORDS, RATE_KW) == Some(0.03)
  {
    RateSampleCount();
    RateSampleMentioned();
  }

  // ---------------------------------------------------------------------
  // Head counts written with their unit
  // ---------------------------------------------------------------------

  /** A head count: 명 or 인 next to the number, including the unit the
      match itself ends with. */
  predicate IsHeadCount(text: string, c: NumericCandidate) {
    IsPersonContext(text, c) || c.suffix == Some('명') || c.suffix == Some('인')
  }

  function HeadCountIn(text: string): NumericCandidate -> bool {
    c => IsHeadCount(text, c)
  }

  /** The household picker with the unit of the match taken into account. */
  function FindHeadCount(text: string, keyword: Pattern): Option<nat> {
    Pick(text, keyword, HeadCountIn(text), NormalizedAs(true))
  }

  function CorrectedHouseholdUpdate(text: string): Option<real> {
    if Mentions(Lower(text), HOUSEHOLD_WORDS) then
      (match FindHeadCount(text, HOUSEHOLD_KW) case Some(n) => Some(MaxInt(1, JsRound(n as real)) as real) case None => None)
    else None
  }

  /** Every head count the original recognises is still one, and so is
      every number written with the unit 명 or 인. */
  lemma HeadCountWidens(text: string, c: NumericCandidate)
    ensures Eligible(text, c, true) ==> IsHeadCount(text, c)
    ensures c.suffix == Some('명') || c.suffix == Some('인') ==> IsHeadCount(text, c)
    ensures IsHeadCount(text, c) <==> Eligible(text, c, true) || c.suffix == Some('명') || c.suffix == Some('인')
  {
  }

  lemma HouseholdQuickHeadCount()
    ensures FindHeadCount(HOUSEHOLD_QUICK_TEXT, HOUSEHOLD_KW) == Some(3)
  {
    var t := HOUSEHOLD_QUICK_TEXT;
    var c := NumericCandidate(3, 3, 4, 6, Some('명'));
    HouseholdQuickCandidates();
    assert IsHeadCount(t, c);
    PickOnly(t, HOUSEHOLD_KW, HeadCountIn(t), NormalizedAs(true), c);
  }

  lemma HouseholdQuickMentioned()
    ensures Lower(HOUSEHOLD_QUICK_TEXT) == HOUSEHOLD_QUICK_TEXT
    ensures Mentions(HOUSEHOLD_QUICK_TEXT, HOUSEHOLD_WORDS)
  {
    var t := HOUSEHOLD_QUICK_TEXT;
    HouseholdQuickChars();
    LowerKeeps(t);
    assert t[0..2] == "가구";
    ContainsAt(t, "가구", 0);
  }

  /** The corrected household rule keeps a head count of at least one. */
  lemma HouseholdAsCounted(t: string, n: nat)
    requires Lower(t) == t && Mentions(t, HOUSEHOLD_WORDS)
    requires FindHeadCount(t, HOUSEHOLD_KW) == Some(n)
    ensures CorrectedHouseholdUpdate(t) == Some(MaxInt(1, n) as real)
  {
    JsRoundOfInt(n);
  }

  /** Corrected, the quick action "가구원 3명" sets a household of 3. */
  lemma HouseholdQuickCorrected()
    ensures CorrectedHouseholdUpdate(HOUSEHOLD_QUICK_TEXT) == Some(3.0)
  {
    HouseholdQuickHeadCount();
    HouseholdQuickMentioned();
    HouseholdAsCounted(HOUSEHOLD_QUICK_TEXT, 3);
  }
}
