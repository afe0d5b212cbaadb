/**
 * The merchant dashboard: the dashboard-data load with its fallback, and
 * the AI chat panel, whose generated chart is drawn over the loaded data.
 */
module MerchantsDashboard {
  import opened Wrappers
  import Js
  import Chat
  import ChartRenderer

  /** `{ topMerchantsByPayments: [], paymentStatusMix: [] }`: the initial value and the fallback. */
  const FallbackData := Js.Obj(map["topMerchantsByPayments" := Js.Arr([]), "paymentStatusMix" := Js.Arr([])])

  /** The body is stored whatever it is; a failed fetch stores the fallback. */
  function DataAfterLoad(outcome: Js.JsonFetch): (data: Js.Value)
    ensures outcome.Rejected? ==> data == FallbackData && Js.Truthy(data)
    ensures outcome.Parsed? ==> data == outcome.json
  {
    match outcome
    case Rejected => FallbackData
    case Parsed(json) => json
  }

  /** The `Merchants` component: one field per state hook. */
  class MerchantsDashboardPage {
    var loading: bool
    var data: Js.Value
    var prompt: string
    var aiResponse: string
    var isLoadingAi: bool
    var error: string
    var chatHistory: seq<Chat.Entry>
    var responseStatus: string
    var generatedChart: Option<string>
    var isChartResponse: bool

    /** The chat panel's part of the state. */
    function ChatView(): Chat.ChatState
      reads this
    {
      Chat.ChatState(prompt, aiResponse, isLoadingAi, error, chatHistory, responseStatus, generatedChart, isChartResponse)
    }

    /** What the component currently renders. */
    function View(): PageView
      reads this
    {
      RenderPage(loading, data, ChatView())
    }

    /** Between handlers the chat invariant holds. */
    ghost predicate Valid()
      reads this
    {
      Chat.Inv(ChatView())
    }

    constructor()
      ensures loading && data == FallbackData && ChatView() == Chat.Initial
      ensures Valid()
    {
      loading := true;
      data := FallbackData;
      prompt := "";
      aiResponse := "";
      isLoadingAi := false;
      error := "";
      chatHistory := [];
      responseStatus := "";
      generatedChart := None;
      isChartResponse := false;
      Chat.InitialInv();
    }

    /** The mount effect settles: the body is stored as is, or the fallback on failure. */
    method FinishInitialLoad(outcome: Js.JsonFetch)
      modifies this
      ensures data == DataAfterLoad(outcome) && !loading
      ensures ChatView() == old(ChatView())
      ensures old(Valid()) ==> Valid()
    {
      match outcome {
        case Rejected =>
          data := FallbackData;
        case Parsed(json) =>
          data := json;
      }
      loading := false;
    }

    /** `handlePromptSubmit`, run to completion with the request's outcome. */
    method HandlePromptSubmit(outcome: Chat.ChatOutcome) returns (sent: Option<Chat.ChatRequest>)
      modifies this
      ensures (ChatView(), sent) == Chat.Submit(old(ChatView()), Chat.MerchantUser, outcome)
      ensures data == old(data) && loading == old(loading)
      ensures old(Valid()) ==> Valid()
    {
      if Js.Trim(prompt) == "" {
        return None;
      }
      var userPrompt := Js.Trim(prompt);
      StartRequest(userPrompt);
      sent := Some(Chat.ChatRequest(userPrompt, "merchant"));
      ReceiveOutcome(outcome);
      if old(Valid()) {
        Chat.SubmitKeepsInv(old(ChatView()), Chat.MerchantUser, outcome);
      }
    }

    /** The part of the submit before the request is awaited. */
    method StartRequest(userPrompt: string)
      modifies this
      ensures ChatView() == Chat.Pending(old(ChatView()), userPrompt)
      ensures data == old(data) && loading == old(loading)
    {
      isLoadingAi := true;
      error := "";
      aiResponse := "";
      responseStatus := "";
      chatHistory := chatHistory + [Chat.UserEntry(userPrompt)];
    }

    /** The part of the submit after the request settles. */
    method ReceiveOutcome(outcome: Chat.ChatOutcome)
      modifies this
      ensures ChatView() == Chat.Settle(old(ChatView()), outcome)
      ensures data == old(data) && loading == old(loading)
    {
      match outcome {
        case Ok(data) =>
          aiResponse := data.response;
          responseStatus := Chat.StatusLabel(data.status);
          if Chat.IsChartReply(data) {
            isChartResponse := true;
            generatedChart := Some(data.response);
          } else {
            isChartResponse := false;
            generatedChart := None;
          }
          chatHistory := chatHistory + [Chat.AiEntryFor(data)];
        case HttpError(_) =>
          error := Chat.FailureMessage(outcome);
        case NetError(_) =>
          error := Chat.FailureMessage(outcome);
      }
      isLoadingAi := false;
    }

    /** `clearChat`. */
    method ClearChat()
      modifies this
      ensures ChatView() == Chat.Clear(old(ChatView()))
      ensures data == old(data) && loading == old(loading)
      ensures old(Valid()) ==> Valid()
    {
      chatHistory := [];
      aiResponse := "";
      error := "";
      responseStatus := "";
    }

    /** `handleSuggestedPrompt`: the chip's text becomes the prompt; nothing is sent. */
    method HandleSuggestedPrompt(suggestion: string)
      modifies this
      ensures ChatView() == Chat.SetPrompt(old(ChatView()), suggestion)
      ensures data == old(data) && loading == old(loading)
      ensures old(Valid()) ==> Valid()
    {
      prompt := suggestion;
    }

    /** The text field's `onChange`. */
    method EditPrompt(text: string)
      modifies this
      ensures ChatView() == Chat.SetPrompt(old(ChatView()), text)
      ensures data == old(data) && loading == old(loading)
      ensures old(Valid()) ==> Valid()
    {
      prompt := text;
    }
  }

  /** The two fixed charts below the chat panel. */
  datatype ChartsView = ChartsSpinner | FixedCharts(topMerchants: Js.Value, statusMix: Js.Value)

  /**
   * What the component returns. `Crashed` is a render that throws: there is
   * no error boundary, so nothing of the page is shown.
   */
  datatype PageView = Crashed | Page(generated: Option<ChartRenderer.View>, charts: ChartsView)

  /**
   * The page: the generated-chart section over the stored data, then the
   * spinner while loading, else the two charts fed from the data's fields.
   * Reading those fields throws on a `null` (or `undefined`) body.
   */
  function RenderPage(loading: bool, data: Js.Value, chat: Chat.ChatState): (v: PageView)
    ensures v.Crashed? <==> !loading && (data.Null? || data.Undefined?)
    ensures v.Page? ==> v.generated == Chat.ChartSection(chat, data)
    ensures v.Page? && loading ==> v.charts == ChartsSpinner
    ensures v.Page? && !loading ==>
              && Js.Member(data, "topMerchantsByPayments").Some?
              && v.charts == FixedCharts(Js.Member(data, "topMerchantsByPayments").value,
                                         Js.Member(data, "paymentStatusMix").value)
  {
    if loading then Page(Chat.ChartSection(chat, data), ChartsSpinner)
    else
      match (Js.Member(data, "topMerchantsByPayments"), Js.Member(data, "paymentStatusMix"))
      case (Some(top), Some(mix)) => Page(Chat.ChartSection(chat, data), FixedCharts(top, mix))
      case _ => Crashed
  }

  /**
   * Unlike the consumer series, the stored body is not checked: once loading
   * ends, a `null` body crashes the page, generated chart included.
   */
  lemma NullBodyCrashesPage(chat: Chat.ChatState)
    ensures RenderPage(false, DataAfterLoad(Js.Parsed(Js.Null)), chat) == Crashed
  {
  }

  /**
   * After the load the page crashes exactly for a `null` (or `undefined`)
   * body; a failed fetch shows the two charts over empty arrays.
   */
  lemma {:induction false} LoadedPageCrashesOnlyOnNull(outcome: Js.JsonFetch, chat: Chat.ChatState)
    ensures RenderPage(false, DataAfterLoad(outcome), chat).Crashed?
            <==> outcome == Js.Parsed(Js.Null) || outcome == Js.Parsed(Js.Undefined)
    ensures outcome.Rejected? ==>
              RenderPage(false, DataAfterLoad(outcome), chat).charts == FixedCharts(Js.Arr([]), Js.Arr([]))
  {
    if outcome.Rejected? {
      assert Js.Member(FallbackData, "topMerchantsByPayments") == Some(Js.Arr([]));
      assert Js.Member(FallbackData, "paymentStatusMix") == Some(Js.Arr([]));
    }
  }
}
