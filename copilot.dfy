/**
 * components/AICopilot.tsx: the floating assistant.  It keeps a
 * transcript that opens with a greeting and then alternates the user's
 * question and the assistant's answer; an answer may carry an action, which
 * either names a tab to navigate to or asks for a new order.  A reply
 * that resolved to `null` makes reading `response.reply` throw, and the
 * catch branch answers with an apology instead.
 */
module AICopilot {
  import opened Wrappers
  import opened Strings
  import opened Types
  import GeminiService

  // ------------------------------------------------------------- actions

  const NavigatePrefix: string := "NAVIGATE:"

  /** `action.split(':')[1]` for an action that starts with `NAVIGATE:`. */
  function NavigationTarget(action: string): (r: Option<string>)
    ensures r.Some? <==> StartsWith(action, NavigatePrefix)
    ensures r.Some? ==> ':' !in r.value
  {
    if StartsWith(action, NavigatePrefix) then
      assert action[8] == ':';
      CountPositive(action, ':');
      Some(Split(action, ':')[1])
    else None
  }

  /**
   * The navigation target is the text between `NAVIGATE:` and the next
   * colon, if any: `NAVIGATE:MARKET` leads to MARKET, `NAVIGATE:A:B` to A.
   */
  lemma NavigationTargetIsSegment(tab: string, rest: string)
    requires ':' !in tab
    requires rest == [] || rest[0] == ':'
    ensures NavigationTarget(NavigatePrefix + tab + rest) == Some(tab)
  {
    assert NavigatePrefix + tab + rest == "NAVIGATE" + [':'] + tab + rest;
    assert StartsWith(NavigatePrefix + tab + rest, NavigatePrefix) by {
      assert (NavigatePrefix + tab + rest)[..9] == NavigatePrefix;
    }
    SplitSecond("NAVIGATE", tab, rest, ':');
  }

  lemma CreateIsNotNavigation()
    ensures !StartsWith("CREATE:ORDER", NavigatePrefix)
  {
    assert "CREATE:ORDER"[0] == 'C';
    assert NavigatePrefix[0] == 'N';
  }

  /** What an answer triggers once its delay has passed. */
  datatype Effect = NoEffect | Navigate(tab: string) | CreateOrder

  /**
   * The branch after a reply: a truthy `NAVIGATE:` action navigates; the
   * action `CREATE:ORDER` calls `onAction('CREATE_ORDER')` only when an
   * `onAction` handler was passed.
   */
  function ActionEffect(action: Option<string>, hasOnAction: bool): (e: Effect)
    ensures e.Navigate? <==> Truthy(action) && StartsWith(action.value, NavigatePrefix)
    ensures e.Navigate? ==> Some(e.tab) == NavigationTarget(action.value)
    ensures e == CreateOrder <==> action == Some("CREATE:ORDER") && hasOnAction
  {
    CreateIsNotNavigation();
    if !Truthy(action) then NoEffect
    else
      var t := NavigationTarget(action.value);
      if t.Some? then Navigate(t.value)
      else if action.value == "CREATE:ORDER" && hasOnAction then CreateOrder
      else NoEffect
  }

  /** The application mounts the assistant without `onAction`, so no reply ever starts an order. */
  lemma AppNeverCreatesOrders(action: Option<string>)
    ensures ActionEffect(action, false) != CreateOrder
  {
  }

  /** `NAVIGATE:<tab>` for a colon-free tab navigates to that tab. */
  lemma NavigateAction(tab: string, hasOnAction: bool)
    requires ':' !in tab
    ensures ActionEffect(Some(NavigatePrefix + tab), hasOnAction) == Navigate(tab)
  {
    NavigationTargetIsSegment(tab, []);
    assert NavigatePrefix + tab + [] == NavigatePrefix + tab;
  }

  /** `NAVIGATE:MARKET`, one of the actions the response schema allows, opens the market tab. */
  lemma MarketAction()
    ensures ActionEffect(Some("NAVIGATE:MARKET"), false) == Navigate("MARKET")
  {
    var tab := "MARKET";
    assert ':' !in tab by {
      forall i | 0 <= i < |tab|
        ensures tab[i] != ':'
      {
      }
    }
    assert NavigatePrefix + tab == "NAVIGATE:MARKET";
    NavigateAction(tab, false);
  }

  // ---------------------------------------------------------- transcript

  const Greeting: string := "你好！我是 Eco-Brain 智能助手。\n我是您的全天候业务参谋。您可以问我：\n- \"最近有什么新订单？\"\n- \"现在的再生石子行情如何？\"\n- \"帮我打开报备页面\""

  /** The greeting the transcript starts with, stamped when the component mounts. */
  function Welcome(mountTime: int): (m: ChatMessage)
    ensures m.sender == AI && m.id == "1" && m.actionLink.None?
  {
    ChatMessage("1", Greeting, AI, mountTime, None)
  }

  /** A question may be sent only when it is not blank. */
  predicate CanSend(input: string) {
    Trim(input) != ""
  }

  /** The user's message: the input as typed, untrimmed. */
  function Question(input: string, now: nat): (m: ChatMessage)
    ensures m.sender == User && m.text == input && m.id == NatToString(now) && m.actionLink.None?
    ensures m.timestamp == now
  {
    ChatMessage(NatToString(now), input, User, now, None)
  }

  /** The assistant's message: the reply text, and the action as its link; its id is one past the clock. */
  function Answer(reply: GeminiService.CopilotReply, replyTime: nat): (m: ChatMessage)
    ensures m.sender == AI && m.text == reply.reply && m.actionLink == reply.action
    ensures m.id == NatToString(replyTime + 1) && m.timestamp == replyTime
  {
    ChatMessage(NatToString(replyTime + 1), reply.reply, AI, replyTime, reply.action)
  }

  const ApologyText: string := "抱歉，我暂时无法连接到大脑中枢。"

  /** The catch branch's message, stamped when the failure is caught. */
  function Apology(t: nat): (m: ChatMessage)
    ensures m.sender == AI && m.text == ApologyText && m.id == NatToString(t) && m.timestamp == t
    ensures m.actionLink.None?
  {
    ChatMessage(NatToString(t), ApologyText, AI, t, None)
  }

  /** The assistant's message once the reply settles: the answer, or the apology for a `null` reply. */
  function Response(reply: Option<GeminiService.CopilotReply>, t: nat): (m: ChatMessage)
    ensures m.sender == AI
    ensures reply.Some? ==> m == Answer(reply.value, t)
    ensures reply.None? ==> m == Apology(t)
  {
    if reply.Some? then Answer(reply.value, t) else Apology(t)
  }

  /** What fires after the reply: its action's effect, and nothing for a `null` reply. */
  function Reaction(reply: Option<GeminiService.CopilotReply>, hasOnAction: bool): (e: Effect)
    ensures reply.None? ==> e == NoEffect
    ensures reply.Some? ==> e == ActionEffect(reply.value.action, hasOnAction)
  {
    if reply.Some? then ActionEffect(reply.value.action, hasOnAction) else NoEffect
  }

  /**
   * A failed call is not the catch branch: `chatWithCopilot` answers with
   * its busy message, which triggers nothing.
   */
  lemma FailedCallAnswersBusy(text: Option<string>, parse: string -> GeminiService.Parsed<GeminiService.CopilotReply>,
                              t: nat, hasOnAction: bool)
    requires !Truthy(text) || parse(GeminiService.CleanJson(text.value)).Unparsable?
    ensures Response(GeminiService.ChatWithCopilot(text, parse), t).text == GeminiService.CopilotFallback().reply
    ensures Response(GeminiService.ChatWithCopilot(text, parse), t).text != ApologyText
    ensures Reaction(GeminiService.ChatWithCopilot(text, parse), hasOnAction) == NoEffect
  {
    assert GeminiService.CopilotFallback().reply[0] != ApologyText[0];
  }

  /** The greeting and then question, answer, question, answer, … */
  predicate Alternates(messages: seq<ChatMessage>) {
    && |messages| % 2 == 1
    && forall k :: 0 <= k < |messages| ==> messages[k].sender == (if k % 2 == 0 then AI else User)
  }

  /** One exchange keeps the transcript alternating. */
  lemma ExchangeAlternates(messages: seq<ChatMessage>, q: ChatMessage, a: ChatMessage)
    requires Alternates(messages) && q.sender == User && a.sender == AI
    ensures Alternates(messages + [q, a])
  {
    var m := messages + [q, a];
    forall k | 0 <= k < |m|
      ensures m[k].sender == (if k % 2 == 0 then AI else User)
    {
      if k < |messages| {
        assert m[k] == messages[k];
      } else if k == |messages| {
        assert m[k] == q;
      } else {
        assert m[k] == a;
      }
    }
  }

  // ---------------------------------------------------- component state

  class State {
    var isOpen: bool
    var messages: seq<ChatMessage>
    var input: string
    var isLoading: bool

    ghost predicate Valid()
      reads this
    {
      Alternates(messages) && messages[0].id == "1"
    }

    constructor (mountTime: int)
      ensures Valid() && !isOpen && messages == [Welcome(mountTime)] && input == "" && !isLoading
    {
      isOpen := false;
      messages := [Welcome(mountTime)];
      input := "";
      isLoading := false;
    }

    method SetOpen(open: bool)
      modifies this`isOpen
      ensures isOpen == open
    {
      isOpen := open;
    }

    method Type(text: string)
      modifies this`input
      ensures input == text
    {
      input := text;
    }

    /**
     * `handleSend`, from the click to the settled reply.  A blank input
     * changes nothing.  Otherwise the question is appended and the input
     * cleared; `ask` is `chatWithCopilot`, which answers the untrimmed
     * question and catches its own failures, resolving to `None` only for a
     * `null` reply.  The answer, or the catch branch's apology, is
     * appended, loading ends, and the effect the timer fires is returned.
     */
    method Send(ask: string -> Option<GeminiService.CopilotReply>, now: nat, replyTime: nat, hasOnAction: bool)
      returns (effect: Effect)
      requires Valid()
      modifies this`messages, this`input, this`isLoading
      ensures Valid()
      ensures !CanSend(old(input)) ==>
                messages == old(messages) && input == old(input) && isLoading == old(isLoading) && effect == NoEffect
      ensures CanSend(old(input)) ==>
                && messages == old(messages) + [Question(old(input), now), Response(ask(old(input)), replyTime)]
                && input == "" && !isLoading
                && effect == Reaction(ask(old(input)), hasOnAction)
    {
      if !CanSend(input) {
        return NoEffect;
      }
      var question := input;
      var response := ask(question);
      ExchangeAlternates(messages, Question(question, now), Response(response, replyTime));
      assert messages + [Question(question, now)] + [Response(response, replyTime)]
          == messages + [Question(question, now), Response(response, replyTime)];
      messages := messages + [Question(question, now)];
      input := "";
      isLoading := true;
      messages := messages + [Response(response, replyTime)];
      isLoading := false;
      effect := Reaction(response, hasOnAction);
    }
  }
}
