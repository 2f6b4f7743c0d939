/** The slide-over assistant panel: a transcript, an input box and a typing
    flag. A send is split in two steps around the awaited service call;
    `Send` runs both against the service. */
module AssistantPanel {
  import opened Common
  import opened AssistantService

  const PanelWelcome: string := "Hello! I'm your AI assistant. I can help you manage tasks, provide insights, and answer questions about your productivity. How can I assist you today?"

  const PanelApology: string := "I apologize, but I'm having trouble connecting to my AI services right now. Please check your API key configuration and try again."

  /** The four quick-action labels. */
  const QuickActionLabels: seq<string> := ["Organize my tasks", "Show productivity insights", "Create a schedule", "Find overdue items"]

  /** What one send asks the service: the text as typed and the context window. */
  datatype PendingSend = PendingSend(text: string, history: seq<Message>)

  /** The assistant message for the service's outcome: its content, or the
      apology when it threw. */
  function ReplyMessage(reply: Result<Content>, id: int): (m: Message)
    ensures m.kind == "ai" && m.id == id && m.actionable == None
    ensures reply.Ok? ==> m.content == reply.value
    ensures reply.Err? ==> m.content == Text(PanelApology)
  {
    Message(id, "ai", if reply.Ok? then reply.value else Text(PanelApology), None)
  }

  class AssistantPanel {
    var messages: seq<Message>
    var inputMessage: string
    var isTyping: bool

    constructor ()
      ensures messages == [Message(1, "ai", Text(PanelWelcome), None)]
      ensures inputMessage == "" && !isTyping
    {
      messages := [Message(1, "ai", Text(PanelWelcome), None)];
      inputMessage := "";
      isTyping := false;
    }

    method Type(value: string)
      modifies this
      ensures inputMessage == value && messages == old(messages) && isTyping == old(isTyping)
    {
      inputMessage := value;
    }

    /** A quick-action button fills the input with its label; nothing is sent. */
    method QuickAction(i: nat)
      requires i < |QuickActionLabels|
      modifies this
      ensures inputMessage == QuickActionLabels[i] && messages == old(messages) && isTyping == old(isTyping)
    {
      inputMessage := QuickActionLabels[i];
    }

    /** The first half of `handleSendMessage`. Whitespace-only input sends
        nothing and changes nothing. Otherwise the untrimmed text is appended
        as the user's message, the input is cleared, typing starts, and the
        request carries the last ten messages from before the append. */
    method BeginSend(now: int) returns (pending: Option<PendingSend>)
      modifies this
      ensures IsBlank(old(inputMessage)) ==>
        pending == None && messages == old(messages) && inputMessage == old(inputMessage) && isTyping == old(isTyping)
      ensures !IsBlank(old(inputMessage)) ==>
        pending == Some(PendingSend(old(inputMessage), TakeLast(old(messages), 10)))
        && messages == old(messages) + [Message(now, "user", Text(old(inputMessage)), None)]
        && inputMessage == "" && isTyping
    {
      TrimEmptyIffBlank(inputMessage);
      var trimmed := Trim(inputMessage);
      if trimmed == "" {
        pending := None;
        return;
      }
      pending := Some(PendingSend(inputMessage, TakeLast(messages, 10)));
      messages := messages + [Message(now, "user", Text(inputMessage), None)];
      inputMessage := "";
      isTyping := true;
    }

    /** The second half: exactly one assistant message is appended, and
        typing stops. */
    method FinishSend(reply: Result<Content>, now: int)
      modifies this
      ensures messages == old(messages) + [ReplyMessage(reply, now + 1)]
      ensures !isTyping && inputMessage == old(inputMessage)
    {
      messages := messages + [ReplyMessage(reply, now + 1)];
      isTyping := false;
    }

    /** A whole send against the service, sent at `now` and answered at `later`. */
    method Send(now: int, later: int, ask: Request -> Outcome)
      modifies this
      ensures IsBlank(old(inputMessage)) ==>
        messages == old(messages) && inputMessage == old(inputMessage) && isTyping == old(isTyping)
      ensures !IsBlank(old(inputMessage)) ==>
        var history := TakeLast(old(messages), 10);
        messages == old(messages) + [Message(now, "user", Text(old(inputMessage)), None),
          ReplyMessage(AssistantResponse(old(inputMessage), history, ask), later + 1)]
        && inputMessage == "" && !isTyping
    {
      var pending := BeginSend(now);
      if pending.Some? {
        FinishSend(AssistantResponse(pending.value.text, pending.value.history, ask), later);
      }
    }
  }

  /** The context window: the last `min(10, n)` messages, in order. */
  lemma HistoryWindow(messages: seq<Message>)
    ensures |TakeLast(messages, 10)| == (if |messages| < 10 then |messages| else 10)
    ensures |messages| <= 10 ==> TakeLast(messages, 10) == messages
    ensures forall i :: 0 <= i < |TakeLast(messages, 10)| ==>
      TakeLast(messages, 10)[i] == messages[|messages| - |TakeLast(messages, 10)| + i]
  {
    var w := TakeLast(messages, 10);
    forall i | 0 <= i < |w| ensures w[i] == messages[|messages| - |w| + i] {
      assert w == messages[|messages| - |w|..];
    }
  }
}
