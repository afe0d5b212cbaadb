/**
 * The consumer dashboard: the monthly-collections load and the AI chat
 * panel, whose generated chart is drawn over the loaded series.
 */
module ConsumerDashboard {
  import opened Wrappers
  import Js
  import Chat
  import ChartRenderer

  /** `json.monthlyCollections || []`, falling back to `[]` when reading it throws. */
  function SeriesAfterLoad(outcome: Js.JsonFetch): (series: Js.Value)
    ensures Js.Truthy(series)
    ensures outcome.Parsed? && Js.Member(outcome.json, "monthlyCollections").Some?
            && Js.Truthy(Js.Member(outcome.json, "monthlyCollections").value)
            ==> series == Js.Member(outcome.json, "monthlyCollections").value
    ensures series != Js.Arr([]) ==> outcome.Parsed? && Js.Member(outcome.json, "monthlyCollections") == Some(series)
  {
    match outcome
    case Rejected => Js.Arr([])
    case Parsed(json) =>
      match Js.Member(json, "monthlyCollections")
      case None => Js.Arr([])
      case Some(v) => Js.Or(v, Js.Arr([]))
  }

  /** A body without the field, a `null` body and a failed fetch all give `[]`. */
  lemma MissingSeriesIsEmpty()
    ensures SeriesAfterLoad(Js.Parsed(Js.Obj(map[]))) == Js.Arr([])
    ensures SeriesAfterLoad(Js.Parsed(Js.Null)) == Js.Arr([])
    ensures SeriesAfterLoad(Js.Rejected) == Js.Arr([])
  {
  }

  /** The `Consumer` component: one field per state hook. */
  class ConsumerDashboardPage {
    var loading: bool
    var series: Js.Value
    var prompt: string
    var aiResponse: string
    var isLoadingAi: bool
    var error: string
    var chatHistory: seq<Chat.Entry>
    var responseStatus: string
    var generatedChart: Option<string>
    var isChartResponse: bool

    /** The chat panel's part of the state. */
    function ChatView(): Chat.ChatState
      reads this
    {
      Chat.ChatState(prompt, aiResponse, isLoadingAi, error, chatHistory, responseStatus, generatedChart, isChartResponse)
    }

    /** Between handlers the chat invariant holds and the series is truthy. */
    ghost predicate Valid()
      reads this
    {
      Chat.Inv(ChatView()) && Js.Truthy(series)
    }

    constructor()
      ensures loading && series == Js.Arr([]) && ChatView() == Chat.Initial
      ensures Valid()
    {
      loading := true;
      series := Js.Arr([]);
      prompt := "";
      aiResponse := "";
      isLoadingAi := false;
      error := "";
      chatHistory := [];
      responseStatus := "";
      generatedChart := None;
      isChartResponse := false;
      Chat.InitialInv();
    }

    /** The mount effect settles: the series is stored and loading ends. */
    method FinishInitialLoad(outcome: Js.JsonFetch)
      modifies this
      ensures series == SeriesAfterLoad(outcome) && !loading
      ensures ChatView() == old(ChatView())
      ensures old(Valid()) ==> Valid()
    {
      match outcome {
        case Rejected =>
          series := Js.Arr([]);
        case Parsed(json) =>
          var collections := Js.Member(json, "monthlyCollections");
          if collections.None? {
            series := Js.Arr([]);
          } else {
            series := Js.Or(collections.value, Js.Arr([]));
          }
      }
      loading := false;
    }

    /** `handlePromptSubmit`, run to completion with the request's outcome. */
    method HandlePromptSubmit(outcome: Chat.ChatOutcome) returns (sent: Option<Chat.ChatRequest>)
      modifies this
      ensures (ChatView(), sent) == Chat.Submit(old(ChatView()), Chat.ConsumerUser, outcome)
      ensures series == old(series) && loading == old(loading)
      ensures old(Valid()) ==> Valid()
    {
      if Js.Trim(prompt) == "" {
        return None;
      }
      var userPrompt := Js.Trim(prompt);
      StartRequest(userPrompt);
      sent := Some(Chat.ChatRequest(userPrompt, "consumer"));
      ReceiveOutcome(outcome);
      if old(Valid()) {
        Chat.SubmitKeepsInv(old(ChatView()), Chat.ConsumerUser, outcome);
      }
    }

    /** The part of the submit before the request is awaited. */
    method StartRequest(userPrompt: string)
      modifies this
      ensures ChatView() == Chat.Pending(old(ChatView()), userPrompt)
      ensures series == old(series) && loading == old(loading)
    {
      isLoadingAi := true;
      error := "";
      aiResponse := "";
      responseStatus := "";
      chatHistory := chatHistory + [Chat.UserEntry(userPrompt)];
    }

    /** The part of the submit after the request settles. */
    method ReceiveOutcome(outcome: Chat.ChatOutcome)
      modifies this
      ensures ChatView() == Chat.Settle(old(ChatView()), outcome)
      ensures series == old(series) && loading == old(loading)
    {
      match outcome {
        case Ok(data) =>
          aiResponse := data.response;
          responseStatus := Chat.StatusLabel(data.status);
          if Chat.IsChartReply(data) {
            isChartResponse := true;
            generatedChart := Some(data.response);
          } else {
            isChartResponse := false;
            generatedChart := None;
          }
          chatHistory := chatHistory + [Chat.AiEntryFor(data)];
        case HttpError(_) =>
          error := Chat.FailureMessage(outcome);
        case NetError(_) =>
          error := Chat.FailureMessage(outcome);
      }
      isLoadingAi := false;
    }

    /** `clearChat`. */
    method ClearChat()
      modifies this
      ensures ChatView() == Chat.Clear(old(ChatView()))
      ensures series == old(series) && loading == old(loading)
      ensures old(Valid()) ==> Valid()
    {
      chatHistory := [];
      aiResponse := "";
      error := "";
      responseStatus := "";
    }

    /** `handleSuggestedPrompt`: the chip's text becomes the prompt; nothing is sent. */
    method HandleSuggestedPrompt(suggestion: string)
      modifies this
      ensures ChatView() == Chat.SetPrompt(old(ChatView()), suggestion)
      ensures series == old(series) && loading == old(loading)
      ensures old(Valid()) ==> Valid()
    {
      prompt := suggestion;
    }

    /** The text field's `onChange`. */
    method EditPrompt(text: string)
      modifies this
      ensures ChatView() == Chat.SetPrompt(old(ChatView()), text)
      ensures series == old(series) && loading == old(loading)
      ensures old(Valid()) ==> Valid()
    {
      prompt := text;
    }
  }

  /**
   * On this dashboard the chart data is the series, which is always truthy,
   * so the generated-chart section never shows the no-data notice.
   */
  lemma {:induction false} SectionNeverLacksData(st: Chat.ChatState, outcome: Js.JsonFetch)
    ensures Chat.ChartSection(st, SeriesAfterLoad(outcome)) != Some(ChartRenderer.NoChartData)
  {
    Chat.TruthyDataNeverNoData(st, SeriesAfterLoad(outcome));
  }
}
