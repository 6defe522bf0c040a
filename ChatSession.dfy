// The conversation state of the chat component: the message list, the
// input box, the in-flight flag and the last error, together with the asset
// form and the flow step the component updates on its page's behalf.
// Sending a message appends the user's line, a local summary when the
// message changed the form, and a pending reply; the reply (or the failure)
// later resolves that pending line.

module ChatSession {
  import opened Common
  import opened AssetInput
  import opened ChatBot

  datatype Role = User | Assistant

  /** A message text: typed by a person or by the model, or the local
      summary of what a message changed in the form. */
  datatype Body = Text(text: string) | LocalSummary(items: seq<SummaryItem>)

  datatype Msg = Msg(id: nat, role: Role, body: Body, pending: bool, local: bool, error: bool)

  /** What the reply request ended with: the reply, or a failure with the
      error's message when there was one. */
  datatype Outcome = Replied(reply: string) | Failed(reason: Option<string>)

  datatype PayloadMessage = PayloadMessage(role: Role, content: Body)

  /** The request sent for a reply: the conversation without the pending
      line, and the form and step the component was showing. */
  datatype ChatRequest = ChatRequest(pendingId: nat, messages: seq<PayloadMessage>, step: Step, data: AssetFormData)

  const INITIAL_MESSAGE: string :=
    "안녕하세요, 금융복지 상담사 WelFAI입니다. 생활 여건과 목표를 알려주시면 맞춤 제도와 활용 팁을 안내해 드릴게요."
  const PENDING_TEXT: string := "답변을 준비하고 있어요..."
  const FAILURE_TEXT: string := "죄송해요. 답변 생성에 실패했어요. 잠시 후 다시 시도해 주세요."
  const UNKNOWN_ERROR: string := "알 수 없는 오류가 발생했어요."

  function UserMsg(id: nat, text: string): Msg {
    Msg(id, User, Text(text), false, false, false)
  }

  function PendingMsg(id: nat): Msg {
    Msg(id, Assistant, Text(PENDING_TEXT), true, false, false)
  }

  /** The local summary line, present only when the message changed something. */
  function LocalMsgs(id: nat, summary: Option<seq<SummaryItem>>): seq<Msg> {
    if summary.Some? then [Msg(id, Assistant, LocalSummary(summary.value), false, true, false)] else []
  }

  /** The conversation once a message is sent: the user's line, then the
      summary of what it changed, if anything. */
  function Exchange(ms: seq<Msg>, nextId: nat, text: string, summary: Option<seq<SummaryItem>>): seq<Msg> {
    ms + [UserMsg(nextId, text)] + LocalMsgs(nextId + 1, summary)
  }

  /** The role and text of every message, in order. */
  function Payload(ms: seq<Msg>): (r: seq<PayloadMessage>)
    ensures |r| == |ms|
    ensures forall i :: 0 <= i < |ms| ==> r[i] == PayloadMessage(ms[i].role, ms[i].body)
  {
    if ms == [] then [] else [PayloadMessage(ms[0].role, ms[0].body)] + Payload(ms[1..])
  }

  /** The message `id` after its reply arrived or failed. */
  function Resolved(m: Msg, outcome: Outcome): Msg {
    match outcome
    case Replied(reply) => m.(body := Text(reply), pending := false)
    case Failed(_) => m.(body := Text(FAILURE_TEXT), pending := false, error := true)
  }

  /** Every message with the given id resolved; every other left as it was. */
  function Resolve(ms: seq<Msg>, id: nat, outcome: Outcome): (r: seq<Msg>)
    ensures |r| == |ms|
    ensures forall i :: 0 <= i < |ms| ==> r[i] == if ms[i].id == id then Resolved(ms[i], outcome) else ms[i]
  {
    if ms == [] then []
    else [if ms[0].id == id then Resolved(ms[0], outcome) else ms[0]] + Resolve(ms[1..], id, outcome)
  }

  /** The error shown under the conversation after an outcome. */
  function ErrorAfter(outcome: Outcome, previous: Option<string>): Option<string> {
    match outcome
    case Replied(_) => previous
    case Failed(reason) => Some(OrElse(reason, UNKNOWN_ERROR))
  }

  /** Ids increase along the list and stay below the next id to hand out. */
  predicate IdsOrdered(ms: seq<Msg>, nextId: nat) {
    (forall i, j :: 0 <= i < j < |ms| ==> ms[i].id < ms[j].id)
    && (forall i :: 0 <= i < |ms| ==> ms[i].id < nextId)
  }

  /** At most the last message is pending, and it is exactly while a reply
      is awaited. */
  predicate PendingLast(ms: seq<Msg>, sending: bool) {
    (forall i :: 0 <= i < |ms| && ms[i].pending ==> i == |ms| - 1)
    && (sending <==> ms != [] && ms[|ms| - 1].pending)
  }

  class Session {
    var messages: seq<Msg>
    var input: string
    var sending: bool
    var lastError: Option<string>
    var data: AssetFormData
    var step: Step
    var nextId: nat

    predicate Valid()
      reads this
    {
      messages != [] && IdsOrdered(messages, nextId) && PendingLast(messages, sending)
    }

    /** A fresh conversation opens with the greeting. */
    constructor (data0: AssetFormData, step0: Step)
      ensures Valid()
      ensures messages == [Msg(0, Assistant, Text(INITIAL_MESSAGE), false, false, false)]
      ensures input == [] && !sending && lastError.None?
      ensures data == data0 && step == step0 && nextId == 1
    {
      messages := [Msg(0, Assistant, Text(INITIAL_MESSAGE), false, false, false)];
      input := [];
      sending := false;
      lastError := None;
      data := data0;
      step := step0;
      nextId := 1;
    }

    /** Sends `message`, or the input box when there is none. Nothing happens
        while a reply is awaited or when the text is blank; otherwise the
        trimmed text is sent. */
    method HandleSend(message: Option<string>) returns (request: Option<ChatRequest>)
      requires Valid()
      modifies this
      ensures Valid()
      ensures old(sending) || JsTrim(OrElse(message, old(input))) == [] ==>
        request.None? && unchanged(this)
      ensures !old(sending) && JsTrim(OrElse(message, old(input))) != [] ==>
        var text := JsTrim(OrElse(message, old(input)));
        var intent := IntentFor(text, old(data));
        var exchange := Exchange(old(messages), old(nextId), text, intent.summary);
        && request == Some(ChatRequest(old(nextId) + 2, Payload(exchange), old(step), old(data)))
        && messages == exchange + [PendingMsg(old(nextId) + 2)]
        && data == intent.data && step == OrElse(intent.step, old(step))
        && input == [] && sending && lastError.None? && nextId == old(nextId) + 3
    {
      var text := JsTrim(OrElse(message, input));
      if sending || text == [] {
        return None;
      }
      var r := Send(text);
      request := Some(r);
    }

    /** Sends a non-blank text: its local intent is applied, the user's line,
        the summary and a pending reply are appended, and the request for the
        reply is returned. The request carries the form and step as they were
        before this message. */
    method Send(text: string) returns (request: ChatRequest)
      requires Valid() && !sending
      modifies this
      ensures Valid()
      ensures var intent := IntentFor(text, old(data));
        var exchange := Exchange(old(messages), old(nextId), text, intent.summary);
        && request == ChatRequest(old(nextId) + 2, Payload(exchange), old(step), old(data))
        && messages == exchange + [PendingMsg(old(nextId) + 2)]
        && data == intent.data && step == OrElse(intent.step, old(step))
        && input == [] && sending && lastError.None? && nextId == old(nextId) + 3
    {
      var newData, nextStep, summary := ProcessLocalIntent(text, data);
      var intent := Intent(newData, nextStep, summary);
      assert intent == IntentFor(text, old(data));
      request := Post(text, intent);
    }

    /** Shows a sent text with the outcome of its local intent. */
    method Post(text: string, intent: Intent) returns (request: ChatRequest)
      requires Valid() && !sending
      modifies this
      ensures Valid()
      ensures var exchange := Exchange(old(messages), old(nextId), text, intent.summary);
        && request == ChatRequest(old(nextId) + 2, Payload(exchange), old(step), old(data))
        && messages == exchange + [PendingMsg(old(nextId) + 2)]
        && data == intent.data && step == OrElse(intent.step, old(step))
        && input == [] && sending && lastError.None? && nextId == old(nextId) + 3
    {
      var ms, n := messages, nextId;
      var exchange := Exchange(messages, nextId, text, intent.summary);
      request := ChatRequest(nextId + 2, Payload(exchange), step, data);
      messages := exchange + [PendingMsg(nextId + 2)];
      data := intent.data;
      step := OrElse(intent.step, step);
      input := [];
      sending := true;
      lastError := None;
      nextId := nextId + 3;
      SendKeepsOrder(ms, n, text, intent.summary, messages);
    }

    /** The awaited reply arrived or failed: the pending line shows the reply
        or the apology, a failure's message becomes the last error, and the
        conversation accepts input again. */
    method Complete(pendingId: nat, outcome: Outcome)
      requires Valid() && sending && messages[|messages| - 1].id == pendingId
      modifies this
      ensures Valid() && !sending
      ensures messages == old(messages)[..|old(messages)| - 1] + [Resolved(old(messages)[|old(messages)| - 1], outcome)]
      ensures lastError == ErrorAfter(outcome, old(lastError))
      ensures input == old(input) && data == old(data) && step == old(step) && nextId == old(nextId)
    {
      var ms := messages;
      ResolveLast(messages, pendingId, outcome);
      messages := Resolve(messages, pendingId, outcome);
      sending := false;
      ResolveKeepsOrder(ms, nextId, outcome, messages);
      if outcome.Failed? {
        lastError := Some(OrElse(outcome.reason, UNKNOWN_ERROR));
      }
    }

    /** The step quick actions move the flow directly. */
    method SelectStep(s: Step)
      modifies this
      ensures step == s
      ensures messages == old(messages) && input == old(input) && sending == old(sending)
      ensures lastError == old(lastError) && data == old(data) && nextId == old(nextId)
    {
      step := s;
    }
  }

  /** A non-blank text with no blank at either end is sent as it is. */
  lemma SentAsIs(t: string)
    requires t != [] && !IsJsSpace(t[0]) && !IsJsSpace(t[|t| - 1])
    ensures JsTrim(t) == t != []
  {
    TrimKeeps(t, IsJsSpace);
  }

  /** The two message quick actions pass `HandleSend`'s guard (when no reply
      is awaited) with their text unchanged, so their effect on the form is
      the intent of that text (`ChatBot.IncomeQuickAction`,
      `ChatBot.HouseholdQuickActionAsWritten`). */
  lemma IncomeQuickTrimmed()
    ensures JsTrim(INCOME_QUICK_TEXT) == INCOME_QUICK_TEXT != []
  {
    SentAsIs(INCOME_QUICK_TEXT);
  }

  lemma HouseholdQuickTrimmed()
    ensures JsTrim(HOUSEHOLD_QUICK_TEXT) == HOUSEHOLD_QUICK_TEXT != []
  {
    SentAsIs(HOUSEHOLD_QUICK_TEXT);
  }

  /** Appending the user's line, the summary and the pending reply keeps
      the ids in order and leaves the new reply the only pending line. */
  lemma SendKeepsOrder(ms: seq<Msg>, nextId: nat, text: string, summary: Option<seq<SummaryItem>>, shown: seq<Msg>)
    requires IdsOrdered(ms, nextId) && PendingLast(ms, false)
    requires shown == Exchange(ms, nextId, text, summary) + [PendingMsg(nextId + 2)]
    ensures shown != [] && IdsOrdered(shown, nextId + 3) && PendingLast(shown, true)
  {
    var added := [UserMsg(nextId, text)] + LocalMsgs(nextId + 1, summary) + [PendingMsg(nextId + 2)];
    assert shown == ms + added;
    AddedLines(nextId, text, summary, added);
    AppendOrdered(ms, added, nextId, nextId + 3);
    AppendPending(ms, added);
  }

  /** The lines a message adds: increasing ids from `nextId` on, below
      `nextId + 3`, and only the last one pending. */
  lemma AddedLines(nextId: nat, text: string, summary: Option<seq<SummaryItem>>, added: seq<Msg>)
    requires added == [UserMsg(nextId, text)] + LocalMsgs(nextId + 1, summary) + [PendingMsg(nextId + 2)]
    ensures added != [] && added[|added| - 1].pending
    ensures forall i :: 0 <= i < |added| - 1 ==> !added[i].pending
    ensures forall i :: 0 <= i < |added| ==> nextId <= added[i].id < nextId + 3
    ensures forall i, j :: 0 <= i < j < |added| ==> added[i].id < added[j].id
  {
    if summary.Some? {
      assert added == [UserMsg(nextId, text), LocalMsgs(nextId + 1, summary)[0], PendingMsg(nextId + 2)];
    } else {
      assert added == [UserMsg(nextId, text), PendingMsg(nextId + 2)];
    }
  }

  /** Lines with larger ids appended to an ordered list keep it ordered. */
  lemma AppendOrdered(ms: seq<Msg>, added: seq<Msg>, lo: nat, hi: nat)
    requires IdsOrdered(ms, lo) && lo <= hi
    requires forall i :: 0 <= i < |added| ==> lo <= added[i].id < hi
    requires forall i, j :: 0 <= i < j < |added| ==> added[i].id < added[j].id
    ensures IdsOrdered(ms + added, hi)
  {
    var shown := ms + added;
    forall i | 0 <= i < |shown| ensures shown[i].id < hi {
      if i >= |ms| {
        assert shown[i] == added[i - |ms|];
      }
    }
    forall i, j | 0 <= i < j < |shown| ensures shown[i].id < shown[j].id {
      if j >= |ms| && i < |ms| {
        assert ms[i].id < lo;
        assert shown[j] == added[j - |ms|];
      }
    }
  }

  /** Appending lines of which only the last is pending to a list with no
      pending line leaves that last one the only pending line. */
  lemma AppendPending(ms: seq<Msg>, added: seq<Msg>)
    requires PendingLast(ms, false)
    requires added != [] && added[|added| - 1].pending
    requires forall i :: 0 <= i < |added| - 1 ==> !added[i].pending
    ensures PendingLast(ms + added, true)
  {
    var shown := ms + added;
    assert forall i :: 0 <= i < |ms| ==> !ms[i].pending;
    forall i | 0 <= i < |shown| && shown[i].pending ensures i == |shown| - 1 {
      if i >= |ms| {
        assert shown[i] == added[i - |ms|];
      }
    }
  }

  /** Resolving the last line keeps the ids, and leaves no line pending. */
  lemma ResolveKeepsOrder(ms: seq<Msg>, nextId: nat, outcome: Outcome, r: seq<Msg>)
    requires IdsOrdered(ms, nextId) && PendingLast(ms, true)
    requires r == ms[..|ms| - 1] + [Resolved(ms[|ms| - 1], outcome)]
    ensures r != [] && IdsOrdered(r, nextId) && PendingLast(r, false)
  {
    assert forall i :: 0 <= i < |r| ==> r[i].id == ms[i].id;
    forall i | 0 <= i < |r| ensures !r[i].pending {
      if i < |ms| - 1 {
        assert r[i] == ms[i];
      }
    }
  }

  /** Resolving the pending last line changes that line alone: every earlier
      id is smaller, so none of them is touched. */
  lemma ResolveLast(ms: seq<Msg>, id: nat, outcome: Outcome)
    requires ms != [] && ms[|ms| - 1].id == id
    requires forall i, j :: 0 <= i < j < |ms| ==> ms[i].id < ms[j].id
    ensures Resolve(ms, id, outcome) == ms[..|ms| - 1] + [Resolved(ms[|ms| - 1], outcome)]
  {
    var r := Resolve(ms, id, outcome);
    forall i | 0 <= i < |ms| - 1
      ensures r[i] == ms[i]
    {
      assert ms[i].id < ms[|ms| - 1].id;
    }
  }
}
