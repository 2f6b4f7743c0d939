/** The full-page assistant chat: a transcript of structured replies, the
    typing flag and the quick-action strip. A send is split in two steps
    around the awaited service call; `Send` runs both against the service. */
module AssistantChat {
  import opened Common
  import opened AssistantService

  const ChatWelcome: string := "Hello! I'm TaskMind AI, your intelligent productivity assistant. I can help you:\n\n• Create and organize tasks\n• Analyze your productivity patterns\n• Suggest optimal schedules\n• Provide workflow insights\n• Answer questions about your tasks\n\nHow can I assist you today?"

  const ChatApology: string := "I apologize, but I'm having trouble connecting to my AI services right now. Please check your OpenAI API key configuration and try again. You can update your API key in the .env file."

  /** The opening message, also all that is left after clearing. */
  const WelcomeMessage: Message := Message(1, "ai", Text(ChatWelcome), None)

  /** The quick-action table: the six known ids, each with its prompt. */
  const QuickActionPrompts: map<string, string> := map[
    "create-task" := "Help me create a new task",
    "schedule-today" := "Show me an optimized schedule for today",
    "productivity-insights" := "Analyze my productivity patterns this week",
    "organize-tasks" := "Help me organize and prioritize my tasks",
    "find-overdue" := "Show me any overdue tasks or upcoming deadlines",
    "weekly-summary" := "Give me a summary of this week's productivity"]

  /** The text a quick action sends: its prompt from the table, or its own
      label for an id the table does not know. */
  function QuickActionText(table: map<string, string>, id: string, caption: string): (text: string)
    ensures id in table && table[id] != "" ==> text == table[id]
    ensures id !in table ==> text == caption
  {
    if id in table then OrElse(table[id], caption) else caption
  }

  /** Every prompt in the table is non-empty, so a known id never falls back. */
  lemma KnownActionsUseTheTable(id: string, caption: string)
    requires id in QuickActionPrompts
    ensures QuickActionText(QuickActionPrompts, id, caption) == QuickActionPrompts[id]
  {
  }

  /** The assistant message for the service's outcome: the reply's content
      and actionable items, or the apology without any. */
  function ReplyMessage(reply: Result<ChatReply>, id: int): (m: Message)
    ensures m.kind == "ai" && m.id == id
    ensures reply.Ok? ==> m.content == reply.value.content && m.actionable == reply.value.actionable
    ensures reply.Err? ==> m.content == Text(ChatApology) && m.actionable == None
  {
    if reply.Ok? then Message(id, "ai", reply.value.content, reply.value.actionable)
    else Message(id, "ai", Text(ChatApology), None)
  }

  /** The confirmation an actionable item's button adds. */
  function Confirmation(item: ActionItem, now: int): (m: Message)
    ensures m.kind == "ai" && m.id == now && m.actionable == None
    ensures m.content.Text? && Includes(m.content.text, item.title)
  {
    var prefix := "✅ Great! I've added \"";
    var text := prefix + item.title
      + "\" to your task list. You can view and manage it in your Task Management section.";
    assert StartsWith(text[|prefix|..], item.title) by {
      assert text[|prefix|..][..|item.title|] == item.title;
    }
    IncludesIffOccurs(text, item.title);
    Message(now, "ai", Text(text), None)
  }

  class AssistantChat {
    var messages: seq<Message>
    var isTyping: bool
    var showQuickActions: bool

    constructor ()
      ensures messages == [WelcomeMessage] && !isTyping && showQuickActions
    {
      messages := [WelcomeMessage];
      isTyping := false;
      showQuickActions := true;
    }

    /** The first half of `handleSendMessage`: the text is appended as the
        user's message, typing starts, the quick actions hide, and the
        request carries the last ten messages from before the append. */
    method BeginSend(text: string, now: int) returns (history: seq<Message>)
      modifies this
      ensures history == TakeLast(old(messages), 10)
      ensures messages == old(messages) + [Message(now, "user", Text(text), None)]
      ensures isTyping && !showQuickActions
    {
      history := TakeLast(messages, 10);
      messages := messages + [Message(now, "user", Text(text), None)];
      isTyping := true;
      showQuickActions := false;
    }

    /** The second half: exactly one assistant message is appended, and
        typing stops. */
    method FinishSend(reply: Result<ChatReply>, now: int)
      modifies this
      ensures messages == old(messages) + [ReplyMessage(reply, now + 1)]
      ensures !isTyping && showQuickActions == old(showQuickActions)
    {
      messages := messages + [ReplyMessage(reply, now + 1)];
      isTyping := false;
    }

    /** A whole send against the service, sent at `now` and answered at `later`. */
    method Send(text: string, now: int, later: int, ask: Request -> Outcome, parse: string -> ChatParse)
      modifies this
      ensures messages == old(messages) + [Message(now, "user", Text(text), None),
        ReplyMessage(StructuredChatResponse(text, TakeLast(old(messages), 10), ask, parse), later + 1)]
      ensures !isTyping && !showQuickActions
    {
      var history := BeginSend(text, now);
      FinishSend(StructuredChatResponse(text, history, ask, parse), later);
    }

    /** `handleQuickActionSelect`: sends the action's text. */
    method QuickActionSelect(id: string, caption: string, now: int, later: int,
                             ask: Request -> Outcome, parse: string -> ChatParse)
      modifies this
      ensures var text := QuickActionText(QuickActionPrompts, id, caption);
        messages == old(messages) + [Message(now, "user", Text(text), None),
          ReplyMessage(StructuredChatResponse(text, TakeLast(old(messages), 10), ask, parse), later + 1)]
      ensures !isTyping && !showQuickActions
    {
      Send(QuickActionText(QuickActionPrompts, id, caption), now, later, ask, parse);
    }

    /** `handleActionableClick`: one confirmation is appended; nothing else
        changes. */
    method ActionableClick(item: ActionItem, now: int)
      modifies this
      ensures messages == old(messages) + [Confirmation(item, now)]
      ensures isTyping == old(isTyping) && showQuickActions == old(showQuickActions)
    {
      messages := messages + [Confirmation(item, now)];
    }

    /** `handleClearChat`: only the welcome message is left, and the quick
        actions show again. */
    method ClearChat()
      modifies this
      ensures messages == [WelcomeMessage] && showQuickActions && isTyping == old(isTyping)
    {
      messages := [WelcomeMessage];
      showQuickActions := true;
    }
  }
}
