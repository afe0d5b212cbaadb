/**
 * The AI chat panel both dashboards carry: the chat state, the three
 * handlers (submit, clear, suggested prompt) as transitions on it, and the
 * generated-chart section the panel feeds.
 */
module Chat {
  import opened Wrappers
  import Js
  import opened ChartRenderer

  /** Which dashboard sends the prompt. */
  datatype UserType = ConsumerUser | MerchantUser

  function UserTypeName(u: UserType): string {
    match u
    case ConsumerUser => "consumer"
    case MerchantUser => "merchant"
  }

  /** The body posted to the chat endpoint. */
  datatype ChatRequest = ChatRequest(prompt: string, userType: string)

  /** The fields of a successful reply the panel reads. */
  datatype AiReply = AiReply(response: string, status: Option<string>, note: Option<string>, isChart: Js.Value)

  /** How the request ended: a decoded reply, a non-2xx status, or a rejection with its message. */
  datatype ChatOutcome = Ok(reply: AiReply) | HttpError(status: nat) | NetError(message: string)

  /** A chat-history entry (ids and timestamps are clock values and are left out). */
  datatype Entry =
    | UserEntry(message: string)
    | AiEntry(message: string, status: Option<string>, note: Option<string>, isChart: Js.Value)

  /** The panel's state hooks. */
  datatype ChatState = ChatState(
    prompt: string,
    aiResponse: string,
    isLoadingAi: bool,
    error: string,
    history: seq<Entry>,
    responseStatus: string,
    generatedChart: Option<string>,
    isChartResponse: bool)

  const Initial := ChatState("", "", false, "", [], "", None, false)

  /** `data.isChart || data.status === "chart_code"`, read as a condition. */
  predicate IsChartReply(r: AiReply)
    ensures IsChartReply(r) <==> Js.Truthy(Js.Or(r.isChart, Js.Bool(r.status == Some("chart_code"))))
    ensures r.status == Some("chart_code") ==> IsChartReply(r)
  {
    Js.Truthy(r.isChart) || r.status == Some("chart_code")
  }

  /** `data.status || "success"`. */
  function StatusLabel(status: Option<string>): (s: string)
    ensures status.Some? && status.value != "" ==> s == status.value
    ensures status.None? || status.value == "" ==> s == "success"
  {
    if status.Some? && status.value != "" then status.value else "success"
  }

  const HttpErrorPrefix := "HTTP error! status: "

  /** `err.message || "Failed to get AI response"` for the two ways a request fails. */
  function FailureMessage(o: ChatOutcome): (m: string)
    requires !o.Ok?
    ensures m != ""
    ensures o.NetError? && o.message != "" ==> m == o.message
    ensures o.NetError? && o.message == "" ==> m == "Failed to get AI response"
    ensures o.HttpError? ==> |m| > |HttpErrorPrefix| && m[..|HttpErrorPrefix|] == HttpErrorPrefix
  {
    match o
    case HttpError(code) => HttpErrorPrefix + Js.DecimalString(code)
    case NetError(msg) => if msg != "" then msg else "Failed to get AI response"
  }

  /** The status code can be read back from the HTTP error message. */
  lemma HttpMessageCarriesStatus(code: nat)
    ensures var m := FailureMessage(HttpError(code));
            var digits := m[|HttpErrorPrefix|..];
            && (forall k :: 0 <= k < |digits| ==> Js.IsDigitChar(digits[k]))
            && Js.DecimalValue(digits) == code
  {
    var m := FailureMessage(HttpError(code));
    assert m[|HttpErrorPrefix|..] == Js.DecimalString(code);
  }

  /**
   * The history entry a reply adds. Its flag keeps the value of
   * `data.isChart || data.status === "chart_code"`, which is truthy exactly
   * for a chart reply.
   */
  function AiEntryFor(r: AiReply): (e: Entry)
    ensures e.AiEntry? && e.message == r.response && e.status == r.status && e.note == r.note
    ensures Js.Truthy(e.isChart) <==> IsChartReply(r)
    ensures Js.Truthy(r.isChart) ==> e.isChart == r.isChart
  {
    AiEntry(r.response, r.status, r.note, Js.Or(r.isChart, Js.Bool(r.status == Some("chart_code"))))
  }

  /**
   * The synchronous start of a non-blank submit of `userPrompt`: loading on,
   * error, response and status cleared, the prompt appended as a user entry.
   */
  function Pending(st: ChatState, userPrompt: string): (p: ChatState)
    ensures p.isLoadingAi && p.error == "" && p.aiResponse == "" && p.responseStatus == ""
    ensures p.history == st.history + [UserEntry(userPrompt)]
    ensures p.prompt == st.prompt
    ensures p.generatedChart == st.generatedChart && p.isChartResponse == st.isChartResponse
  {
    st.(isLoadingAi := true, error := "", aiResponse := "", responseStatus := "",
        history := st.history + [UserEntry(userPrompt)])
  }

  /** How the request settles: the reply is recorded, or the failure is reported. Loading ends. */
  function Settle(st: ChatState, outcome: ChatOutcome): (s: ChatState)
    ensures !s.isLoadingAi && s.prompt == st.prompt
    ensures outcome.Ok? ==>
              && s.history == st.history + [AiEntryFor(outcome.reply)]
              && s.aiResponse == outcome.reply.response
              && s.responseStatus == StatusLabel(outcome.reply.status)
              && s.isChartResponse == IsChartReply(outcome.reply)
              && s.generatedChart == (if IsChartReply(outcome.reply) then Some(outcome.reply.response) else None)
              && s.error == st.error
    ensures !outcome.Ok? ==>
              s == st.(isLoadingAi := false, error := FailureMessage(outcome))
  {
    match outcome
    case Ok(r) =>
      var chart := IsChartReply(r);
      st.(aiResponse := r.response,
          responseStatus := StatusLabel(r.status),
          isChartResponse := chart,
          generatedChart := if chart then Some(r.response) else None,
          history := st.history + [AiEntryFor(r)],
          isLoadingAi := false)
    case _ =>
      st.(error := FailureMessage(outcome), isLoadingAi := false)
  }

  /** `!prompt.trim()`: the prompt is blank, that is, it holds only white space. */
  predicate Blank(prompt: string)
    ensures Blank(prompt) <==> Js.WhitespaceBetween(prompt, 0, |prompt|)
  {
    Js.Trim(prompt) == ""
  }

  /**
   * `handlePromptSubmit` run to completion: the new state and the request
   * sent, if any.
   */
  function Submit(st: ChatState, who: UserType, outcome: ChatOutcome): (r: (ChatState, Option<ChatRequest>))
    ensures Blank(st.prompt) ==> r == (st, None)
    ensures !Blank(st.prompt) ==>
              && r.1 == Some(ChatRequest(Js.Trim(st.prompt), UserTypeName(who)))
              && r.0 == Settle(Pending(st, Js.Trim(st.prompt)), outcome)
  {
    if Blank(st.prompt) then (st, None)
    else (Settle(Pending(st, Js.Trim(st.prompt)), outcome), Some(ChatRequest(Js.Trim(st.prompt), UserTypeName(who))))
  }

  /** `clearChat`: the history, response, error and status are reset; nothing else changes. */
  function Clear(st: ChatState): (s: ChatState)
    ensures s.history == [] && s.aiResponse == "" && s.error == "" && s.responseStatus == ""
    ensures && s.prompt == st.prompt && s.generatedChart == st.generatedChart
            && s.isChartResponse == st.isChartResponse && s.isLoadingAi == st.isLoadingAi
  {
    st.(history := [], aiResponse := "", error := "", responseStatus := "")
  }

  /** `setPrompt`, used by both the text field and a suggested-prompt chip. */
  function SetPrompt(st: ChatState, text: string): (s: ChatState)
    ensures s.prompt == text && s.(prompt := st.prompt) == st
    ensures Blank(s.prompt) <==> Js.WhitespaceBetween(text, 0, |text|)
  {
    st.(prompt := text)
  }

  // ---------------------------------------------------------------------
  // Invariants
  // ---------------------------------------------------------------------

  /** Every AI entry directly follows a user entry. */
  ghost predicate WellFormedHistory(h: seq<Entry>) {
    forall k :: 0 <= k < |h| && h[k].AiEntry? ==> k > 0 && h[k - 1].UserEntry?
  }

  /** The chart flag is set exactly when a generated chart is stored. */
  predicate ChartConsistent(st: ChatState) {
    st.isChartResponse <==> st.generatedChart.Some?
  }

  /** What holds between handlers. */
  ghost predicate Inv(st: ChatState) {
    !st.isLoadingAi && ChartConsistent(st) && WellFormedHistory(st.history)
  }

  lemma InitialInv()
    ensures Inv(Initial)
  {
  }

  /** Appending a user entry, or a user entry then an AI entry, keeps the history well formed. */
  lemma {:induction false} AppendKeepsWellFormed(h: seq<Entry>, u: string, tail: seq<Entry>)
    requires WellFormedHistory(h)
    requires tail == [] || (|tail| == 1 && tail[0].AiEntry?)
    ensures WellFormedHistory(h + [UserEntry(u)] + tail)
  {
    var h' := h + [UserEntry(u)] + tail;
    forall k | 0 <= k < |h'| && h'[k].AiEntry?
      ensures k > 0 && h'[k - 1].UserEntry?
    {
      if k < |h| {
        assert h'[k] == h[k];
        assert h'[k - 1] == h[k - 1];
      } else {
        assert k == |h| + 1;
      }
    }
  }

  lemma {:induction false} SubmitKeepsInv(st: ChatState, who: UserType, outcome: ChatOutcome)
    requires Inv(st)
    ensures Inv(Submit(st, who, outcome).0)
  {
    if !Blank(st.prompt) {
      var u := Js.Trim(st.prompt);
      var s := Submit(st, who, outcome).0;
      if outcome.Ok? {
        AppendKeepsWellFormed(st.history, u, [AiEntryFor(outcome.reply)]);
        assert s.history == st.history + [UserEntry(u)] + [AiEntryFor(outcome.reply)];
      } else {
        AppendKeepsWellFormed(st.history, u, []);
        assert s.history == st.history + [UserEntry(u)] + [];
      }
    }
  }

  lemma ClearKeepsInv(st: ChatState)
    requires Inv(st)
    ensures Inv(Clear(st))
  {
  }

  lemma SetPromptKeepsInv(st: ChatState, text: string)
    requires Inv(st)
    ensures Inv(SetPrompt(st, text))
  {
  }

  // ---------------------------------------------------------------------
  // Properties of a submit
  // ---------------------------------------------------------------------

  /**
   * A non-blank submit appends the trimmed prompt as a user entry; the
   * history grows by one on failure and by two, user then AI, on success.
   */
  lemma {:induction false} SubmitHistory(st: ChatState, who: UserType, outcome: ChatOutcome)
    requires !Blank(st.prompt)
    ensures var h := Submit(st, who, outcome).0.history;
            && h[..|st.history|] == st.history
            && |h| == |st.history| + (if outcome.Ok? then 2 else 1)
            && h[|st.history|] == UserEntry(Js.Trim(st.prompt))
            && (outcome.Ok? ==> h[|st.history| + 1] == AiEntryFor(outcome.reply))
  {
    var h := Submit(st, who, outcome).0.history;
    if outcome.Ok? {
      assert h == st.history + [UserEntry(Js.Trim(st.prompt))] + [AiEntryFor(outcome.reply)];
    } else {
      assert h == st.history + [UserEntry(Js.Trim(st.prompt))];
    }
  }

  /** The message of a user entry is never blank. */
  lemma {:induction false} UserEntryNotBlank(st: ChatState, who: UserType, outcome: ChatOutcome)
    requires !Blank(st.prompt)
    ensures var h := Submit(st, who, outcome).0.history;
            |h| > |st.history| && h[|st.history|].message != ""
  {
    SubmitHistory(st, who, outcome);
    assert Js.Trim(st.prompt) != "";
  }

  /**
   * A failed submit reports a non-empty error, adds no AI entry and leaves
   * the chart flag and the generated chart as they were.
   */
  lemma FailureKeepsChart(st: ChatState, who: UserType, outcome: ChatOutcome)
    requires !Blank(st.prompt) && !outcome.Ok?
    ensures var s := Submit(st, who, outcome).0;
            && s.error == FailureMessage(outcome) && s.error != ""
            && s.generatedChart == st.generatedChart && s.isChartResponse == st.isChartResponse
            && s.aiResponse == "" && s.responseStatus == ""
            && (forall k :: |st.history| <= k < |s.history| ==> s.history[k].UserEntry?)
  {
  }

  /** A successful submit clears the error, and the chart fields follow the chart rule. */
  lemma SuccessFollowsChartRule(st: ChatState, who: UserType, r: AiReply)
    requires !Blank(st.prompt)
    ensures var s := Submit(st, who, Ok(r)).0;
            && s.error == ""
            && s.isChartResponse == IsChartReply(r)
            && (s.generatedChart.Some? <==> IsChartReply(r))
            && (s.generatedChart.Some? ==> s.generatedChart.value == r.response)
            && (Js.Truthy(s.history[|s.history| - 1].isChart) <==> s.isChartResponse)
  {
  }

  /**
   * The Clear button stays enabled while a request is pending. Clearing
   * between the start of a submit and its reply drops the user entry, and the
   * reply then lands alone: the history invariant holds only when the
   * handlers do not interleave.
   */
  lemma ClearWhilePendingOrphansReply(st: ChatState, userPrompt: string, r: AiReply)
    ensures var s := Settle(Clear(Pending(st, userPrompt)), Ok(r));
            && s.history == [AiEntryFor(r)]
            && !WellFormedHistory(s.history)
  {
    var s := Settle(Clear(Pending(st, userPrompt)), Ok(r));
    assert s.history[0].AiEntry?;
  }

  // ---------------------------------------------------------------------
  // The generated-chart section
  // ---------------------------------------------------------------------

  /** `isChartResponse && generatedChart`: the renderer is mounted. */
  predicate PanelShown(st: ChatState)
    ensures PanelShown(st) <==>
              st.isChartResponse && Js.Truthy(if st.generatedChart.Some? then Js.Str(st.generatedChart.value) else Js.Null)
  {
    st.isChartResponse && CodeTruthy(st.generatedChart)
  }

  /**
   * What the section shows once the renderer's effect has run on the
   * stored code. By `EffectForgetsPrior` the renderer's earlier hooks do
   * not matter, so they are taken as unresolved.
   */
  function ChartSection(st: ChatState, data: Js.Value): (v: Option<View>)
    ensures v.Some? <==> PanelShown(st)
  {
    if PanelShown(st) then Some(Render(st.isLoadingAi, Effect(Unresolved, st.generatedChart), data))
    else None
  }

  /** Clearing the chat leaves the chart section exactly as it was. */
  lemma ClearKeepsChartSection(st: ChatState, data: Js.Value)
    ensures ChartSection(Clear(st), data) == ChartSection(st, data)
  {
  }

  /** While a request is pending, a shown chart section stays shown and shows the spinner. */
  lemma PendingShowsSpinner(st: ChatState, userPrompt: string, data: Js.Value)
    requires PanelShown(st)
    ensures ChartSection(Pending(st, userPrompt), data) == Some(Spinner)
  {
  }

  /** A failed submit leaves the chart section as it was before the submit. */
  lemma FailureKeepsChartSection(st: ChatState, who: UserType, outcome: ChatOutcome, data: Js.Value)
    requires !st.isLoadingAi && !outcome.Ok?
    ensures ChartSection(Submit(st, who, outcome).0, data) == ChartSection(st, data)
  {
  }

  /**
   * A chart reply whose code resolves to a family shows that chart with
   * the dashboard's data, provided the data is truthy.
   */
  lemma {:induction false} ChartReplyShowsChart(st: ChatState, who: UserType, r: AiReply, data: Js.Value)
    requires !Blank(st.prompt) && IsChartReply(r) && r.response != ""
    requires ChartDispatch.Resolve(r.response).Success? && Js.Truthy(data)
    ensures ChartSection(Submit(st, who, Ok(r)).0, data) == Some(Chart(ChartDispatch.Resolve(r.response).value, data))
  {
    RenderAfterEffect(Unresolved, r.response, data);
  }

  /**
   * With truthy data the section never shows the no-data notice: after the
   * effect either a family is set or a (truthy) error is.
   */
  lemma {:induction false} TruthyDataNeverNoData(st: ChatState, data: Js.Value)
    requires Js.Truthy(data)
    ensures ChartSection(st, data) != Some(NoChartData)
  {
    if PanelShown(st) && !st.isLoadingAi {
      var code := st.generatedChart.value;
      RenderAfterEffect(Unresolved, code, data);
    }
  }
}
