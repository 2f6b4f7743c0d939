/** The client side of the language-model service. The provider call is the
    parameter `ask`, from the request sent to what came back (a reply or a
    failure); `JSON.parse` of a reply's text is a parser parameter. The three
    service functions build the request, default the parsed fields and decide
    which failures are absorbed and which reach the caller. */
module AssistantService {
  import opened Common
  import opened DetailTask

  /** `choices[0].message.content` as JavaScript sees it: absent, `null`, or text. */
  datatype Content = Missing | Null | Text(text: string)

  /** A suggested task offered under a chat reply. */
  datatype ActionItem = ActionItem(id: string, title: string, description: string, dueDate: string, priority: string)

  /** A transcript entry of either chat: `kind` is the message's `type`
      ("user" or "ai"); `actionable` is `actionableContent`, None for `null`. */
  datatype Message = Message(id: int, kind: string, content: Content, actionable: Option<seq<ActionItem>>)

  /** One entry of the provider's `messages` array. */
  datatype ChatMessage = ChatMessage(role: string, content: Content)

  /** A completion request; `temperature` is in tenths and `schema` names the
      JSON schema of a structured reply ("" for plain text). */
  datatype Request = Request(messages: seq<ChatMessage>, temperature: nat, maxTokens: nat, schema: string)

  /** What the provider call produced: it threw, or it answered. */
  datatype Outcome = Failed | Replied(content: Content)

  datatype Insight = Insight(kind: string, icon: string, title: string, content: string, action: string)

  /** `JSON.parse` of an insights reply: it threw, or it gave a value whose
      `insights` field is present and truthy (Some) or not (None). */
  datatype InsightsParse = InsightsUnparsable | InsightsParsed(insights: Option<seq<Insight>>)

  /** `JSON.parse` of a chat reply: it threw, or it gave a value; `content`
      is "" when the field is missing or falsy, `actionable` None when
      `actionableContent` is missing or `null`. */
  datatype ChatParse = ChatUnparsable | ChatParsed(content: string, actionable: Option<seq<ActionItem>>)

  /** The structured chat reply handed to the chat page. */
  datatype ChatReply = ChatReply(content: Content, actionable: Option<seq<ActionItem>>)

  const AssistantPrompt: string :=
    "You are TaskMind AI, an intelligent productivity assistant. You help users with task management, productivity insights, and workflow optimization. \n\n"
    + "Key capabilities:\n- Create and organize tasks\n- Analyze productivity patterns\n- Suggest optimal schedules\n- Provide workflow insights\n- Answer questions about tasks and productivity\n\n"
    + "Keep responses helpful, concise, and focused on productivity enhancement. When suggesting tasks or schedules, provide specific, actionable recommendations."

  const InsightsPrompt: string :=
    "You are an AI productivity expert that analyzes tasks and provides actionable insights. Generate 3-4 specific, actionable insights for the given task.\n\n"
    + "Return insights in this exact JSON format:\n{\n  \"insights\": [\n    {\n"
    + "      \"type\": \"suggestion|warning|optimization|reference\",\n"
    + "      \"icon\": \"Lightbulb|AlertTriangle|TrendingUp|BookOpen\",\n"
    + "      \"title\": \"Brief insight title\",\n"
    + "      \"content\": \"Detailed explanation of the insight\",\n"
    + "      \"action\": \"Actionable button text\"\n    }\n  ]\n}\n\n"
    + "Types:\n- suggestion: General recommendations for improvement\n- warning: Potential blockers or risks\n"
    + "- optimization: Productivity and efficiency tips\n- reference: Related resources or similar tasks"

  const ChatPrompt: string :=
    "You are TaskMind AI, a productivity assistant. Generate responses with optional actionable content.\n\n"
    + "For requests about creating tasks, schedules, or organizing work, include actionable items.\n"
    + "For general questions or insights, provide just the content.\n\n"
    + "Return response in this JSON format:\n{\n  \"content\": \"Your main response text\",\n"
    + "  \"actionableContent\": null or [\n    {\n      \"id\": \"unique-id\",\n"
    + "      \"title\": \"Actionable item title\",\n      \"description\": \"Brief description\",\n"
    + "      \"dueDate\": \"Suggested date/time\",\n      \"priority\": \"high|medium|low\"\n    }\n  ]\n}"

  /** The one error `generateAssistantResponse` throws, whatever went wrong. */
  const AssistantFailure: string := "Failed to generate AI response. Please try again."

  const DefaultChatContent: string := "I'm here to help with your productivity needs."

  /** The insight returned when the insights request or its parse fails. */
  const FallbackInsight: Insight := Insight("suggestion", "Lightbulb", "Break Down Complex Tasks",
    "Consider breaking this task into smaller, manageable subtasks for better progress tracking.",
    "Create Subtasks")

  /** A history entry's role: only "user" stays the user, everything else
      was said by the assistant. */
  function RoleOf(kind: string): (role: string)
    ensures role == "user" <==> kind == "user"
    ensures role == "user" || role == "assistant"
  {
    if kind == "user" then "user" else "assistant"
  }

  /** The transcript as provider messages, one per entry, in order. */
  function History(history: seq<Message>): (r: seq<ChatMessage>)
    ensures |r| == |history|
    ensures forall i :: 0 <= i < |history| ==>
      r[i] == ChatMessage(RoleOf(history[i].kind), history[i].content)
  {
    if history == [] then []
    else [ChatMessage(RoleOf(history[0].kind), history[0].content)] + History(history[1..])
  }

  /** Mapping a split transcript maps each part. */
  lemma {:induction false} HistoryAppend(a: seq<Message>, b: seq<Message>)
    ensures History(a + b) == History(a) + History(b)
  {
    if a == [] {
      assert a + b == b;
    } else {
      assert (a + b)[0] == a[0];
      assert (a + b)[1..] == a[1..] + b;
      HistoryAppend(a[1..], b);
    }
  }

  /** The message list: the system prompt, then the history, then the user's text. */
  function Messages(system: string, history: seq<Message>, user: string): (r: seq<ChatMessage>)
    ensures |r| == |history| + 2
    ensures r[0] == ChatMessage("system", Text(system))
    ensures r[1..|r| - 1] == History(history)
    ensures r[|r| - 1] == ChatMessage("user", Text(user))
  {
    var r := [ChatMessage("system", Text(system))] + History(history) + [ChatMessage("user", Text(user))];
    assert r[1..|r| - 1] == History(history);
    r
  }

  /** Exactly one more user turn than the history had: the new message. */
  lemma {:induction false} UserTurnsOf(history: seq<Message>, system: string, user: string)
    ensures UserTurns(Messages(system, history, user)) == UserEntries(history) + 1
  {
    var r := Messages(system, history, user);
    assert r == [r[0]] + r[1..|r| - 1] + [r[|r| - 1]];
    UserTurnsAppend([r[0]] + r[1..|r| - 1], [r[|r| - 1]]);
    UserTurnsAppend([r[0]], r[1..|r| - 1]);
    assert ([r[|r| - 1]])[1..] == [];
    assert ([r[0]])[1..] == [];
    UserTurnsMatch(history);
  }

  /** The number of messages with role "user". */
  function UserTurns(m: seq<ChatMessage>): nat
  {
    if m == [] then 0 else (if m[0].role == "user" then 1 else 0) + UserTurns(m[1..])
  }

  /** The number of history entries of type "user". */
  function UserEntries(h: seq<Message>): nat
  {
    if h == [] then 0 else (if h[0].kind == "user" then 1 else 0) + UserEntries(h[1..])
  }

  lemma {:induction false} UserTurnsAppend(a: seq<ChatMessage>, b: seq<ChatMessage>)
    ensures UserTurns(a + b) == UserTurns(a) + UserTurns(b)
  {
    if a == [] {
      assert a + b == b;
    } else {
      assert (a + b)[0] == a[0];
      assert (a + b)[1..] == a[1..] + b;
      UserTurnsAppend(a[1..], b);
    }
  }

  lemma {:induction false} UserTurnsMatch(h: seq<Message>)
    ensures UserTurns(History(h)) == UserEntries(h)
  {
    if h != [] {
      assert History(h)[1..] == History(h[1..]);
      UserTurnsMatch(h[1..]);
    }
  }

  /** The request of `generateAssistantResponse`. */
  function AssistantRequest(user: string, history: seq<Message>): Request
  {
    Request(Messages(AssistantPrompt, history, user), 7, 800, "")
  }

  /** The request of `generateStructuredChatResponse`. */
  function ChatRequest(user: string, history: seq<Message>): Request
  {
    Request(Messages(ChatPrompt, history, user), 7, 1000, "chat_response")
  }

  /** `generateAssistantResponse`: the first choice's content as it came,
      or the one generic error for any failure of the call. */
  function AssistantResponse(user: string, history: seq<Message>, ask: Request -> Outcome): (r: Result<Content>)
    ensures r.Err? <==> ask(AssistantRequest(user, history)).Failed?
    ensures r.Err? ==> r.message == AssistantFailure
    ensures r.Ok? ==> r.value == ask(AssistantRequest(user, history)).content
  {
    match ask(AssistantRequest(user, history))
    case Failed => Err(AssistantFailure)
    case Replied(content) => Ok(content)
  }

  /** The five values the insights prompt shows, each replaced by its
      placeholder when the task leaves it empty. */
  function PromptValues(t: DetailTask): (v: seq<string>)
    ensures |v| == 5
    ensures forall i :: 0 <= i < 5 ==> v[i] != ""
    ensures t.title != "" ==> v[0] == t.title
    ensures t.description != "" ==> v[1] == t.description
    ensures t.priority != "" ==> v[2] == t.priority
    ensures t.dueDate != "" ==> v[3] == t.dueDate
    ensures t.status != "" ==> v[4] == t.status
  {
    [OrElse(t.title, "Untitled Task"), OrElse(t.description, "No description provided"),
     OrElse(t.priority, "medium"), OrElse(t.dueDate, "No due date set"), OrElse(t.status, "pending")]
  }

  /** The placeholders stand exactly for the empty fields. */
  lemma PromptPlaceholders(t: DetailTask)
    ensures t.title == "" ==> PromptValues(t)[0] == "Untitled Task"
    ensures t.description == "" ==> PromptValues(t)[1] == "No description provided"
    ensures t.priority == "" ==> PromptValues(t)[2] == "medium"
    ensures t.dueDate == "" ==> PromptValues(t)[3] == "No due date set"
    ensures t.status == "" ==> PromptValues(t)[4] == "pending"
  {
  }

  /** The user message of the insights request. */
  function TaskPrompt(t: DetailTask): string
  {
    var v := PromptValues(t);
    "Analyze this task and provide insights:\nTitle: " + v[0] + "\nDescription: " + v[1]
      + "\nPriority: " + v[2] + "\nDue Date: " + v[3] + "\nStatus: " + v[4]
  }

  /** The request of `generateTaskInsights`: no history, just the task. */
  function InsightsRequest(t: DetailTask): (q: Request)
    ensures |q.messages| == 2 && q.messages[1] == ChatMessage("user", Text(TaskPrompt(t)))
  {
    Request(Messages(InsightsPrompt, [], TaskPrompt(t)), 8, 1000, "task_insights")
  }

  /** The insight list for what the provider answered. */
  function InsightsOf(out: Outcome, parse: string -> InsightsParse): seq<Insight>
  {
    match out
    case Failed => [FallbackInsight]
    case Replied(Missing) => [FallbackInsight]   // JSON.parse(undefined) throws
    case Replied(Null) => []                      // JSON.parse(null) is null
    case Replied(Text(s)) =>
      match parse(s)
      case InsightsUnparsable => [FallbackInsight]
      case InsightsParsed(found) => if found.Some? then found.value else []
  }

  /** `generateTaskInsights`: never fails. A failed call, a missing reply or
      an unparsable one gives the single fallback insight; a parsed reply
      gives its insights, or none when it has no `insights` field. */
  function TaskInsights(t: DetailTask, ask: Request -> Outcome, parse: string -> InsightsParse): (r: seq<Insight>)
    ensures ask(InsightsRequest(t)).Failed? ==> r == [FallbackInsight]
    ensures ask(InsightsRequest(t)) == Replied(Missing) ==> r == [FallbackInsight]
    ensures ask(InsightsRequest(t)) == Replied(Null) ==> r == []
    ensures forall s :: ask(InsightsRequest(t)) == Replied(Text(s)) ==>
      (parse(s).InsightsUnparsable? ==> r == [FallbackInsight])
      && (parse(s) == InsightsParsed(None) ==> r == [])
      && (forall found :: parse(s) == InsightsParsed(Some(found)) ==> r == found)
  {
    InsightsOf(ask(InsightsRequest(t)), parse)
  }

  /** Whether the structured call failed as far as its caller can tell: the
      call threw, or `JSON.parse` threw on what came back. */
  predicate StructuredFailed(out: Outcome, parse: string -> ChatParse)
  {
    out.Failed? || out == Replied(Missing) || (out.Replied? && out.content.Text? && parse(out.content.text).ChatUnparsable?)
  }

  /** `generateStructuredChatResponse`. A structured answer gives its
      content, or the default text when that is empty, and its actionable
      items; a failed one falls back to `generateAssistantResponse` on the
      same inputs, whose content comes without actionable items and whose
      error reaches the caller. */
  function StructuredChatResponse(user: string, history: seq<Message>, ask: Request -> Outcome,
                                  parse: string -> ChatParse): (r: Result<ChatReply>)
    ensures !StructuredFailed(ask(ChatRequest(user, history)), parse) ==>
      r.Ok? && r.value.content.Text? && r.value.content.text != ""
    ensures StructuredFailed(ask(ChatRequest(user, history)), parse) ==>
      var fallback := AssistantResponse(user, history, ask);
      (r.Err? <==> fallback.Err?) && (fallback.Ok? ==> r.value == ChatReply(fallback.value, None))
    ensures r.Err? ==> r.message == AssistantFailure
    ensures ask(ChatRequest(user, history)) == Replied(Null) ==> r == Ok(ChatReply(Text(DefaultChatContent), None))
    ensures forall s :: ask(ChatRequest(user, history)) == Replied(Text(s)) && parse(s).ChatParsed? ==>
      r == Ok(ChatReply(Text(OrElse(parse(s).content, DefaultChatContent)), parse(s).actionable))
  {
    var out := ask(ChatRequest(user, history));
    if out == Replied(Null) then Ok(ChatReply(Text(DefaultChatContent), None))
    else if out.Replied? && out.content.Text? && parse(out.content.text).ChatParsed? then
      var p := parse(out.content.text);
      Ok(ChatReply(Text(OrElse(p.content, DefaultChatContent)), p.actionable))
    else
      match AssistantResponse(user, history, ask)
      case Err(e) => Err(e)
      case Ok(content) => Ok(ChatReply(content, None))
  }

  /** The structured call reaches its caller as an error only when both
      provider calls failed. */
  lemma StructuredErrorNeedsBothFailures(user: string, history: seq<Message>, ask: Request -> Outcome,
                                         parse: string -> ChatParse)
    ensures StructuredChatResponse(user, history, ask, parse).Err? <==>
      StructuredFailed(ask(ChatRequest(user, history)), parse) && ask(AssistantRequest(user, history)).Failed?
  {
  }
}
