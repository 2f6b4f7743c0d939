/** The AI insights card of the task-detail page. A load is split in two
    steps around the awaited service call. */
module InsightsPanel {
  import opened Common
  import opened DetailTask
  import opened AssistantService

  /** What the card shows when the service call throws. */
  const UnavailableInsight: Insight := Insight("suggestion", "Lightbulb", "AI Service Unavailable",
    "Unable to generate AI insights at the moment. Please check your OpenAI API key configuration.",
    "Retry")

  /** `getInsightColor`; unknown types are gray. */
  function InsightColor(kind: string): (c: string)
    ensures c == "border-gray-200 bg-gray-50" <==> kind !in {"suggestion", "warning", "optimization", "reference"}
  {
    match kind
    case "suggestion" => "border-blue-200 bg-blue-50"
    case "warning" => "border-orange-200 bg-orange-50"
    case "optimization" => "border-green-200 bg-green-50"
    case "reference" => "border-purple-200 bg-purple-50"
    case _ => "border-gray-200 bg-gray-50"
  }

  /** `getIconColor`; unknown types are gray. */
  function IconColor(kind: string): (c: string)
    ensures c == "text-gray-600" <==> kind !in {"suggestion", "warning", "optimization", "reference"}
  {
    match kind
    case "suggestion" => "text-blue-600"
    case "warning" => "text-orange-600"
    case "optimization" => "text-green-600"
    case "reference" => "text-purple-600"
    case _ => "text-gray-600"
  }

  /** The two colour maps agree on which types they know. */
  lemma ColoursAgreeOnKnownTypes(kind: string)
    ensures (InsightColor(kind) == "border-gray-200 bg-gray-50") == (IconColor(kind) == "text-gray-600")
  {
  }

  /** The effect's test: a task is shown and it is not the one last loaded. */
  predicate NeedsLoad(task: Option<DetailTask>, lastTaskId: Option<string>)
  {
    task.Some? && lastTaskId != Some(task.value.id)
  }

  /** After the effect has run for a task it does not fire again for it. */
  lemma EffectFiresOncePerTask(task: DetailTask, lastTaskId: Option<string>)
    ensures !NeedsLoad(Some(task), Some(task.id))
    ensures lastTaskId == None ==> NeedsLoad(Some(task), lastTaskId)
  {
  }

  class InsightsPanel {
    var isExpanded: bool
    var insights: seq<Insight>
    var isLoading: bool
    var lastTaskId: Option<string>

    constructor ()
      ensures isExpanded && insights == [] && !isLoading && lastTaskId == None
    {
      isExpanded := true;
      insights := [];
      isLoading := false;
      lastTaskId := None;
    }

    /** The start of `loadInsights`: nothing without a task; otherwise the
        spinner is on. */
    method BeginLoad(task: Option<DetailTask>) returns (started: bool)
      modifies this
      ensures started == task.Some?
      ensures isLoading == (old(isLoading) || task.Some?)
      ensures insights == old(insights) && lastTaskId == old(lastTaskId) && isExpanded == old(isExpanded)
    {
      started := task.Some?;
      if started {
        isLoading := true;
      }
    }

    /** The end of `loadInsights`: the service's list replaces the shown one,
        or the single "AI Service Unavailable" insight if the call threw; the
        spinner is off either way. */
    method FinishLoad(result: Result<seq<Insight>>)
      modifies this
      ensures insights == (if result.Ok? then result.value else [UnavailableInsight])
      ensures !isLoading && lastTaskId == old(lastTaskId) && isExpanded == old(isExpanded)
    {
      if result.Ok? {
        insights := result.value;
      } else {
        insights := [UnavailableInsight];
      }
      isLoading := false;
    }

    /** A whole load against the service. The service never throws, so the
        card always ends up with the service's own list. */
    method Load(task: Option<DetailTask>, ask: Request -> Outcome, parse: string -> InsightsParse)
      modifies this
      ensures task.Some? ==> insights == TaskInsights(task.value, ask, parse) && !isLoading
      ensures task.None? ==> insights == old(insights) && isLoading == old(isLoading)
      ensures lastTaskId == old(lastTaskId) && isExpanded == old(isExpanded)
    {
      var started := BeginLoad(task);
      if started {
        FinishLoad(Ok(TaskInsights(task.value, ask, parse)));
      }
    }

    /** The effect on `[task, lastTaskId]`: a new task id starts a load and
        is remembered; the same id, or no task, does nothing. */
    method Effect(task: Option<DetailTask>) returns (started: bool)
      modifies this
      ensures started == NeedsLoad(task, old(lastTaskId))
      ensures started ==> isLoading && lastTaskId == Some(task.value.id)
      ensures !started ==> isLoading == old(isLoading) && lastTaskId == old(lastTaskId)
      ensures insights == old(insights) && isExpanded == old(isExpanded)
    {
      started := false;
      if NeedsLoad(task, lastTaskId) {
        started := BeginLoad(task);
        lastTaskId := Some(task.value.id);
      }
    }

    /** An insight's action button: only "Retry" reloads. */
    method ActionClick(insight: Insight, task: Option<DetailTask>) returns (started: bool)
      modifies this
      ensures started <==> insight.action == "Retry" && task.Some?
      ensures insight.action != "Retry" ==> isLoading == old(isLoading)
      ensures insights == old(insights) && lastTaskId == old(lastTaskId) && isExpanded == old(isExpanded)
    {
      started := false;
      if insight.action == "Retry" {
        started := BeginLoad(task);
      }
    }

    /** "Refresh Insights", which is disabled while a load runs. */
    method Refresh(task: Option<DetailTask>) returns (started: bool)
      modifies this
      ensures started <==> !old(isLoading) && task.Some?
      ensures old(isLoading) ==> isLoading
      ensures insights == old(insights) && lastTaskId == old(lastTaskId) && isExpanded == old(isExpanded)
    {
      started := false;
      if !isLoading {
        started := BeginLoad(task);
      }
    }

    method ToggleExpanded()
      modifies this
      ensures isExpanded == !old(isExpanded)
      ensures insights == old(insights) && isLoading == old(isLoading) && lastTaskId == old(lastTaskId)
    {
      isExpanded := !isExpanded;
    }
  }
}
