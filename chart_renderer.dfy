/**
 * The `DynamicChartRenderer` component: the effect that resolves `chartCode`
 * into a chart family or an error message, and the chain of checks that
 * decides what the component shows.
 */
module ChartRenderer {
  import opened Wrappers
  import opened ChartDispatch
  import Js

  /** The component's two state hooks, `ChartComponent` and `error`. */
  datatype Panel = Panel(component: Option<Family>, error: Option<string>)

  /** Both hooks start out `null`. */
  const Unresolved := Panel(None, None)

  /** `chartCode` is truthy: present and not the empty string. */
  predicate CodeTruthy(chartCode: Option<string>) {
    chartCode.Some? && chartCode.value != ""
  }

  /** `error` is truthy. */
  predicate ErrorTruthy(error: Option<string>) {
    error.Some? && error.value != ""
  }

  /** At most one of the two hooks is set. */
  predicate Exclusive(p: Panel) {
    !(p.component.Some? && p.error.Some?)
  }

  /** Both error messages are non-empty, so a stored error is always truthy. */
  lemma MessageNonEmpty(e: ChartError)
    ensures |Message(e)| > 0
  {
  }

  /**
   * The effect keyed on `chartCode`. A falsy code returns early; otherwise
   * a resolved family clears the error, and a thrown error clears the component.
   */
  function Effect(p: Panel, chartCode: Option<string>): (q: Panel)
    ensures !CodeTruthy(chartCode) ==> q == p
    ensures CodeTruthy(chartCode) ==> (q.component.Some? <==> q.error.None?)
    ensures CodeTruthy(chartCode) ==>
              (q.error == Some("Could not determine chart type from code")
               <==> forall i: nat, r: nat, e: nat :: !Candidate(chartCode.value, i, r, e))
    ensures CodeTruthy(chartCode) && q.component.Some? ==>
              IsGroup(chartCode.value, FamilyName(q.component.value))
    ensures CodeTruthy(chartCode) && q.error.Some? ==> ErrorTruthy(q.error)
  {
    if !CodeTruthy(chartCode) then p
    else
      match Resolve(chartCode.value)
      case Success(f) => Panel(Some(f), None)
      case Failure(e) =>
        MessageNonEmpty(e);
        MessagesDistinguishErrors(e, NoChartType);
        Panel(None, Some(Message(e)))
  }

  /** The effect keeps the hooks exclusive. */
  lemma EffectKeepsExclusive(p: Panel, chartCode: Option<string>)
    requires Exclusive(p)
    ensures Exclusive(Effect(p, chartCode))
  {
  }

  /**
   * On a truthy code the outcome depends on the code alone, never on the
   * previous hooks: the same code always gives the same family or error.
   */
  lemma EffectForgetsPrior(p: Panel, p': Panel, chartCode: Option<string>)
    requires CodeTruthy(chartCode)
    ensures Effect(p, chartCode) == Effect(p', chartCode)
  {
  }

  /** What the component returns. */
  datatype View =
    | Spinner
    | ErrorAlert(text: string)
    | NoChartData
    | Chart(family: Family, data: Js.Value)

  /** The render chain: loading, then error, then missing component or data, then the chart. */
  function Render(isLoading: bool, p: Panel, data: Js.Value): (v: View)
    ensures v.Spinner? <==> isLoading
    ensures v.ErrorAlert? <==> !isLoading && ErrorTruthy(p.error)
    ensures v.ErrorAlert? ==> v.text == "Error rendering chart: " + p.error.value
    ensures v.NoChartData? <==> !isLoading && !ErrorTruthy(p.error) && (p.component.None? || !Js.Truthy(data))
    ensures v.Chart? ==> Some(v.family) == p.component && v.data == data
  {
    if isLoading then Spinner
    else if ErrorTruthy(p.error) then ErrorAlert("Error rendering chart: " + p.error.value)
    else if p.component.None? || !Js.Truthy(data) then NoChartData
    else Chart(p.component.value, data)
  }

  /**
   * Once the effect has run on a truthy code and nothing is loading, the
   * component shows the chart for the resolved family (when the data is
   * truthy), the no-data notice (when it is not), or the error alert with
   * the resolver's message; the previous hooks play no part.
   */
  lemma {:induction false} RenderAfterEffect(p: Panel, code: string, data: Js.Value)
    requires code != ""
    ensures var v := Render(false, Effect(p, Some(code)), data);
            match Resolve(code)
            case Success(f) => v == (if Js.Truthy(data) then Chart(f, data) else NoChartData)
            case Failure(e) => v == ErrorAlert("Error rendering chart: " + Message(e))
  {
    match Resolve(code)
    case Success(f) =>
    case Failure(e) => MessageNonEmpty(e);
  }

  /** An empty array is truthy: a resolved family with `[]` still renders a chart. */
  lemma EmptyArrayRendersChart(f: Family)
    ensures Render(false, Panel(Some(f), None), Js.Arr([])) == Chart(f, Js.Arr([]))
  {
  }

  /** The mounted component: its two hooks as fields, updated by the effect. */
  class ChartRendererComponent {
    var component: Option<Family>
    var error: Option<string>

    function State(): Panel
      reads this
    {
      Panel(component, error)
    }

    constructor()
      ensures State() == Unresolved
    {
      component := None;
      error := None;
    }

    /** Runs the effect for a new `chartCode`. */
    method OnChartCode(chartCode: Option<string>)
      modifies this
      ensures State() == Effect(old(State()), chartCode)
      ensures old(Exclusive(State())) ==> Exclusive(State())
    {
      if !CodeTruthy(chartCode) {
        return;
      }
      match Resolve(chartCode.value)
      case Success(f) =>
        component := Some(f);
        error := None;
      case Failure(e) =>
        error := Some(Message(e));
        component := None;
    }
  }
}
