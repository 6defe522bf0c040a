/** The server side of the consultation chat: the conversion of the chat
    history to the language model's turn format, the rendering of the
    user's financial context as a summary block, and the assembly of the
    request, which refuses an empty conversation. The model call itself is
    not part of this model. */
module ChatService {
  import opened Common

  // ---------------------------------------------------------------------
  // Messages
  // ---------------------------------------------------------------------

  datatype ChatMessage = ChatMessage(role: string, content: string)

  /** The model's two speakers. */
  datatype Speaker = User | Model

  /** A part of a turn: message text, or the rendered context block. */
  datatype Part = Text(text: string) | ContextBlock(lines: seq<Line>)

  datatype Content = Content(role: Speaker, parts: seq<Part>)

  /** The speaker of a message role after lower-casing, or None for a role
      the model does not know. */
  function SpeakerOf(role: string): (r: Option<Speaker>)
    ensures r == Some(User) <==> Lower(role) == "user"
    ensures r == Some(Model) <==> Lower(role) == "assistant"
  {
    var lowered := Lower(role);
    if lowered == "user" then Some(User)
    else if lowered == "assistant" then Some(Model)
    else None
  }

  /** The converted history: one turn per message with a known role, in
      order, carrying the message text as its only part. */
  function Converted(messages: seq<ChatMessage>): (r: seq<Content>)
    ensures |r| <= |messages|
  {
    if messages == [] then []
    else
      var m := messages[|messages| - 1];
      var prev := Converted(messages[..|messages| - 1]);
      match SpeakerOf(m.role)
      case None => prev
      case Some(s) => prev + [Content(s, [Text(m.content)])]
  }

  /** `_convert_messages`. */
  method ConvertMessages(messages: seq<ChatMessage>) returns (converted: seq<Content>)
    ensures converted == Converted(messages)
  {
    converted := [];
    var n := 0;
    while n < |messages|
      invariant 0 <= n <= |messages|
      invariant converted == Converted(messages[..n])
    {
      var msg := messages[n];
      assert messages[..n + 1][..n] == messages[..n];
      var role := Lower(msg.role);
      if role == "user" || role == "assistant" {
        converted := converted + [Content(if role == "user" then User else Model, [Text(msg.content)])];
      }
      n := n + 1;
    }
    assert messages[..n] == messages;
  }

  predicate KnownRole(m: ChatMessage) { SpeakerOf(m.role).Some? }

  /** Messages whose roles are all known, as the request schema demands,
      are converted one for one, each keeping its text and its speaker. */
  lemma {:induction false} ConvertedOneForOne(messages: seq<ChatMessage>)
    requires forall i :: 0 <= i < |messages| ==> KnownRole(messages[i])
    ensures |Converted(messages)| == |messages|
    ensures forall i :: 0 <= i < |messages| ==>
      SpeakerOf(messages[i].role).Some? && Converted(messages)[i] == Content(SpeakerOf(messages[i].role).value, [Text(messages[i].content)])
    decreases |messages|
  {
    if messages != [] {
      var n := |messages| - 1;
      ConvertedOneForOne(messages[..n]);
    }
  }

  /** Dropping messages of unknown roles: appending one changes nothing. */
  lemma UnknownRoleDropped(messages: seq<ChatMessage>, m: ChatMessage)
    requires !KnownRole(m)
    ensures Converted(messages + [m]) == Converted(messages)
  {
    assert (messages + [m])[..|messages|] == messages;
  }

  // ---------------------------------------------------------------------
  // Context
  // ---------------------------------------------------------------------

  datatype SavingsSnapshot = SavingsSnapshot(
    productName: Option<string>,
    principal: Option<real>,
    annualRate: Option<real>,
    monthsRemaining: Option<int>,
    earlyTerminatePenaltyRate: Option<real>)

  datatype AssetSnapshot = AssetSnapshot(
    monthlyIncome: Option<real>,
    householdSize: Option<int>,
    realEstate: Option<real>,
    deposits: Option<real>,
    otherAssets: Option<real>,
    savings: Option<SavingsSnapshot>)

  datatype EligibilitySnapshot = EligibilitySnapshot(baseEligible: Option<bool>, microFinanceEligible: Option<bool>)

  datatype IncomeRecognitionSnapshot = IncomeRecognitionSnapshot(total: Option<real>, perCapita: Option<real>)

  datatype ChatContext = ChatContext(
    step: Option<int>,
    assets: Option<AssetSnapshot>,
    incomeRecognition: Option<IncomeRecognitionSnapshot>,
    eligibility: Option<EligibilitySnapshot>)

  /** The lines of the context block, by what they say (the number
      formatting of the text is not modelled). */
  datatype Line =
    | Header
    | StepLine(step: int)
    | AssetsHeading
    | IncomeLine(amount: real)
    | HouseholdLine(size: int)
    | RealEstateLine(amount: real)
    | DepositsLine(amount: real)
    | OtherAssetsLine(amount: real)
    | SavingsTitle(title: string)
    | PrincipalLine(amount: real)
    | RateLine(percent: real)
    | MonthsLine(months: int)
    | PenaltyLine(percent: real)
    | RecognitionHeading
    | TotalLine(amount: real)
    | PerCapitaLine(amount: real)
    | EligibilityHeading
    | BaseLine(wording: string)
    | MicroLine(wording: string)

  const NOT_ENTERED: string := "미입력"
  const LIKELY: string := "가능성 있음"
  const OVER_THRESHOLD: string := "기준 초과"
  const NEEDS_GUIDANCE: string := "가이드 필요"

  function SavingsLines(s: SavingsSnapshot): seq<Line> {
    var title := if s.productName.Some? && s.productName.value != [] then s.productName.value else NOT_ENTERED;
    [SavingsTitle(title)] + TermLines(s)
  }

  /** The principal, rate, term and penalty lines of a savings product. */
  function TermLines(s: SavingsSnapshot): seq<Line> {
    (if s.principal.Some? then [PrincipalLine(s.principal.value)] else [])
    + (if s.annualRate.Some? then [RateLine(s.annualRate.value * 100.0)] else [])
    + (if s.monthsRemaining.Some? then [MonthsLine(s.monthsRemaining.value)] else [])
    + (if s.earlyTerminatePenaltyRate.Some? then [PenaltyLine(s.earlyTerminatePenaltyRate.value * 100.0)] else [])
  }

  function AssetLines(a: AssetSnapshot): seq<Line> {
    [AssetsHeading] + IncomeLines(a) + HoldingLines(a)
    + (if a.savings.Some? then SavingsLines(a.savings.value) else [])
  }

  /** The income and household lines of the asset part. */
  function IncomeLines(a: AssetSnapshot): seq<Line> {
    (if a.monthlyIncome.Some? then [IncomeLine(a.monthlyIncome.value)] else [])
    + (if a.householdSize.Some? then [HouseholdLine(a.householdSize.value)] else [])
  }

  /** The real estate, deposit and other-asset lines of the asset part. */
  function HoldingLines(a: AssetSnapshot): seq<Line> {
    (if a.realEstate.Some? then [RealEstateLine(a.realEstate.value)] else [])
    + (if a.deposits.Some? then [DepositsLine(a.deposits.value)] else [])
    + (if a.otherAssets.Some? then [OtherAssetsLine(a.otherAssets.value)] else [])
  }

  function RecognitionLines(inc: IncomeRecognitionSnapshot): seq<Line> {
    [RecognitionHeading]
    + (if inc.total.Some? then [TotalLine(inc.total.value)] else [])
    + (if inc.perCapita.Some? then [PerCapitaLine(inc.perCapita.value)] else [])
  }

  function BaseWording(eligible: bool): string { if eligible then LIKELY else OVER_THRESHOLD }
  function MicroWording(eligible: bool): string { if eligible then LIKELY else NEEDS_GUIDANCE }

  function EligibilityLines(e: EligibilitySnapshot): seq<Line> {
    [EligibilityHeading]
    + (if e.baseEligible.Some? then [BaseLine(BaseWording(e.baseEligible.value))] else [])
    + (if e.microFinanceEligible.Some? then [MicroLine(MicroWording(e.microFinanceEligible.value))] else [])
  }

  /** The lines collected for a context, section by section. */
  function ContextLines(c: ChatContext): seq<Line> {
    (if c.step.Some? then [StepLine(c.step.value)] else [])
    + (if c.assets.Some? then AssetLines(c.assets.value) else [])
    + (if c.incomeRecognition.Some? then RecognitionLines(c.incomeRecognition.value) else [])
    + (if c.eligibility.Some? then EligibilityLines(c.eligibility.value) else [])
  }

  /** The rendered block: None without a context or without lines,
      otherwise the header followed by the lines. */
  function Rendered(context: Option<ChatContext>): (r: Option<seq<Line>>)
    ensures r.Some? ==> r.value != [] && r.value[0] == Header
  {
    if context.None? then None
    else
      var lines := ContextLines(context.value);
      if lines == [] then None else Some([Header] + lines)
  }

  /** The savings part of `_render_context`. */
  method RenderSavings(s: SavingsSnapshot) returns (lines: seq<Line>)
    ensures lines == SavingsLines(s)
  {
    var title := if s.productName.Some? && s.productName.value != [] then s.productName.value else NOT_ENTERED;
    var terms: seq<Line> := [];
    if s.principal.Some? {
      terms := terms + [PrincipalLine(s.principal.value)];
    }
    if s.annualRate.Some? {
      terms := terms + [RateLine(s.annualRate.value * 100.0)];
    }
    if s.monthsRemaining.Some? {
      terms := terms + [MonthsLine(s.monthsRemaining.value)];
    }
    if s.earlyTerminatePenaltyRate.Some? {
      terms := terms + [PenaltyLine(s.earlyTerminatePenaltyRate.value * 100.0)];
    }
    assert terms == TermLines(s);
    lines := [SavingsTitle(title)] + terms;
  }

  /** The asset part of `_render_context`. */
  method RenderAssets(a: AssetSnapshot) returns (lines: seq<Line>)
    ensures lines == AssetLines(a)
  {
    var income: seq<Line> := [];
    if a.monthlyIncome.Some? {
      income := income + [IncomeLine(a.monthlyIncome.value)];
    }
    if a.householdSize.Some? {
      income := income + [HouseholdLine(a.householdSize.value)];
    }
    assert income == IncomeLines(a);
    var holdings: seq<Line> := [];
    if a.realEstate.Some? {
      holdings := holdings + [RealEstateLine(a.realEstate.value)];
    }
    if a.deposits.Some? {
      holdings := holdings + [DepositsLine(a.deposits.value)];
    }
    if a.otherAssets.Some? {
      holdings := holdings + [OtherAssetsLine(a.otherAssets.value)];
    }
    assert holdings == HoldingLines(a);
    lines := [AssetsHeading] + income + holdings;
    if a.savings.Some? {
      var more := RenderSavings(a.savings.value);
      lines := lines + more;
    }
  }

  /** The income-recognition part of `_render_context`. */
  method RenderRecognition(inc: IncomeRecognitionSnapshot) returns (lines: seq<Line>)
    ensures lines == RecognitionLines(inc)
  {
    lines := [RecognitionHeading];
    if inc.total.Some? {
      lines := lines + [TotalLine(inc.total.value)];
    }
    if inc.perCapita.Some? {
      lines := lines + [PerCapitaLine(inc.perCapita.value)];
    }
  }

  /** The eligibility part of `_render_context`. */
  method RenderEligibility(e: EligibilitySnapshot) returns (lines: seq<Line>)
    ensures lines == EligibilityLines(e)
  {
    lines := [EligibilityHeading];
    if e.baseEligible.Some? {
      lines := lines + [BaseLine(if e.baseEligible.value then LIKELY else OVER_THRESHOLD)];
    }
    if e.microFinanceEligible.Some? {
      lines := lines + [MicroLine(if e.microFinanceEligible.value then LIKELY else NEEDS_GUIDANCE)];
    }
  }

  /** `_render_context`: collects the lines section by section. */
  method RenderContext(context: Option<ChatContext>) returns (r: Option<seq<Line>>)
    ensures r == Rendered(context)
  {
    if context.None? {
      return None;
    }
    var c := context.value;
    var lines: seq<Line> := [];
    if c.step.Some? {
      lines := lines + [StepLine(c.step.value)];
    }
    if c.assets.Some? {
      var more := RenderAssets(c.assets.value);
      lines := lines + more;
    }
    assert lines == (if c.step.Some? then [StepLine(c.step.value)] else [])
      + (if c.assets.Some? then AssetLines(c.assets.value) else []);
    if c.incomeRecognition.Some? {
      var more := RenderRecognition(c.incomeRecognition.value);
      lines := lines + more;
    }
    if c.eligibility.Some? {
      var more := RenderEligibility(c.eligibility.value);
      lines := lines + more;
    }
    assert lines == ContextLines(c);
    if lines == [] {
      return None;
    }
    r := Some([Header] + lines);
  }

  /** There is no block exactly when there is no context or the context is
      empty; the header opens the block and occurs nowhere else. */
  lemma RenderedShape(context: Option<ChatContext>)
    ensures Rendered(context).None? <==>
      context.None? || (context.value.step.None? && context.value.assets.None?
                        && context.value.incomeRecognition.None? && context.value.eligibility.None?)
    ensures Rendered(context).Some? ==> Header !in Rendered(context).value[1..]
  {
    if context.Some? {
      var c := context.value;
      var lines := ContextLines(c);
      HeaderOnlyOpens(c);
      assert Rendered(context).Some? ==> Rendered(context).value[1..] == lines;
    }
  }

  /** Every section present contributes a line, and no section holds the
      header. */
  lemma HeaderOnlyOpens(c: ChatContext)
    ensures ContextLines(c) == [] <==>
      c.step.None? && c.assets.None? && c.incomeRecognition.None? && c.eligibility.None?
    ensures Header !in ContextLines(c)
  {
    var step := if c.step.Some? then [StepLine(c.step.value)] else [];
    var assets := if c.assets.Some? then AssetLines(c.assets.value) else [];
    var recognition := if c.incomeRecognition.Some? then RecognitionLines(c.incomeRecognition.value) else [];
    var eligibility := if c.eligibility.Some? then EligibilityLines(c.eligibility.value) else [];
    assert ContextLines(c) == step + assets + recognition + eligibility;
    if c.assets.Some? {
      AssetsHeaderFree(c.assets.value);
    }
    assert Header !in step && Header !in recognition && Header !in eligibility;
  }

  lemma AssetsHeaderFree(a: AssetSnapshot)
    ensures Header !in AssetLines(a)
  {
    SectionKinds(a);
    var savings := if a.savings.Some? then SavingsLines(a.savings.value) else [];
    assert AssetLines(a) == ([AssetsHeading] + IncomeLines(a)) + (HoldingLines(a) + savings);
    assert Header !in [AssetsHeading] + IncomeLines(a);
    assert Header !in HoldingLines(a) + savings;
  }

  /** The eligibility wording: "가능성 있음" when eligible; otherwise "기준
      초과" for the basic livelihood line and "가이드 필요" for the
      microfinance line; and a line only for a known answer. */
  lemma EligibilityWording(e: EligibilitySnapshot)
    ensures BaseLine(LIKELY) in EligibilityLines(e) <==> e.baseEligible == Some(true)
    ensures BaseLine(OVER_THRESHOLD) in EligibilityLines(e) <==> e.baseEligible == Some(false)
    ensures MicroLine(LIKELY) in EligibilityLines(e) <==> e.microFinanceEligible == Some(true)
    ensures MicroLine(NEEDS_GUIDANCE) in EligibilityLines(e) <==> e.microFinanceEligible == Some(false)
  {
  }

  /** Only known asset fields produce lines, each carrying its value, and
      a savings product without a name is titled "미입력". */
  lemma AssetLinesReflectFields(a: AssetSnapshot, x: real)
    ensures IncomeLine(x) in AssetLines(a) <==> a.monthlyIncome == Some(x)
    ensures DepositsLine(x) in AssetLines(a) <==> a.deposits == Some(x)
    ensures a.savings.Some? && (a.savings.value.productName.None? || a.savings.value.productName == Some([])) ==>
      SavingsTitle(NOT_ENTERED) in AssetLines(a)
    ensures a.savings.None? ==> forall l :: l in AssetLines(a) ==> !l.SavingsTitle?
  {
    IncomeReflected(a, x);
    DepositsReflected(a, x);
    SavingsTitled(a);
  }

  lemma IncomeReflected(a: AssetSnapshot, x: real)
    ensures IncomeLine(x) in AssetLines(a) <==> a.monthlyIncome == Some(x)
  {
    var savings := if a.savings.Some? then SavingsLines(a.savings.value) else [];
    SectionKinds(a);
    assert AssetLines(a) == ([AssetsHeading] + IncomeLines(a)) + (HoldingLines(a) + savings);
    assert IncomeLine(x) !in HoldingLines(a) + savings;
  }

  lemma DepositsReflected(a: AssetSnapshot, x: real)
    ensures DepositsLine(x) in AssetLines(a) <==> a.deposits == Some(x)
  {
    var savings := if a.savings.Some? then SavingsLines(a.savings.value) else [];
    var head := [AssetsHeading] + IncomeLines(a);
    SectionKinds(a);
    assert AssetLines(a) == head + HoldingLines(a) + savings;
    assert DepositsLine(x) !in head && DepositsLine(x) !in savings;
  }

  lemma SavingsTitled(a: AssetSnapshot)
    ensures a.savings.Some? && (a.savings.value.productName.None? || a.savings.value.productName == Some([])) ==>
      SavingsTitle(NOT_ENTERED) in AssetLines(a)
    ensures a.savings.None? ==> forall l :: l in AssetLines(a) ==> !l.SavingsTitle?
  {
    SectionKinds(a);
    if a.savings.Some? {
      assert SavingsLines(a.savings.value)[0] in AssetLines(a);
    } else {
      assert AssetLines(a) == [AssetsHeading] + IncomeLines(a) + HoldingLines(a);
    }
  }

  /** Which kinds of line each part of the asset section holds. */
  lemma SectionKinds(a: AssetSnapshot)
    ensures forall l :: l in IncomeLines(a) ==> l.IncomeLine? || l.HouseholdLine?
    ensures forall l :: l in HoldingLines(a) ==> l.RealEstateLine? || l.DepositsLine? || l.OtherAssetsLine?
    ensures a.savings.Some? ==> forall l :: l in SavingsLines(a.savings.value) ==>
      l.SavingsTitle? || l.PrincipalLine? || l.RateLine? || l.MonthsLine? || l.PenaltyLine?
  {
  }

  // ---------------------------------------------------------------------
  // The request
  // ---------------------------------------------------------------------

  datatype Request = Contents(contents: seq<Content>) | BadRequest(status: int)

  /** What `generate_chat_reply` sends: the rendered context as a first
      user turn when there is one, then the converted history; status 400
      when that leaves nothing to send. */
  function ChatRequest(messages: seq<ChatMessage>, context: Option<ChatContext>): (r: Request)
    ensures r.BadRequest? ==> r.status == 400
    ensures r.Contents? ==> r.contents != []
  {
    var converted := Converted(messages);
    var rendered := Rendered(context);
    var contents := if rendered.Some? then [Content(User, [ContextBlock(rendered.value)])] + converted else converted;
    if contents == [] then BadRequest(400) else Contents(contents)
  }

  /** The request is refused exactly when no message has a known role and
      the context renders to nothing; a rendered context always comes
      first, from the user, and the history follows it unchanged. */
  lemma ChatRequestProperties(messages: seq<ChatMessage>, context: Option<ChatContext>)
    ensures ChatRequest(messages, context).BadRequest? <==>
      (forall i :: 0 <= i < |messages| ==> !KnownRole(messages[i])) && Rendered(context).None?
    ensures Rendered(context).Some? ==>
      ChatRequest(messages, context).contents[0] == Content(User, [ContextBlock(Rendered(context).value)])
      && ChatRequest(messages, context).contents[1..] == Converted(messages)
  {
    ConvertedEmpty(messages);
  }

  lemma {:induction false} ConvertedEmpty(messages: seq<ChatMessage>)
    ensures Converted(messages) == [] <==> forall i :: 0 <= i < |messages| ==> !KnownRole(messages[i])
    decreases |messages|
  {
    if messages != [] {
      var n := |messages| - 1;
      ConvertedEmpty(messages[..n]);
      assert forall i :: 0 <= i < n ==> messages[..n][i] == messages[i];
    }
  }
}
