/** The cockpit dashboard's smart-warning card: `generateInsight` over
    `loadingInsight` and `insight`, the card's caption and the insight panel. */
module Dashboard {

  import opened Wrappers
  import opened JsValues
  import opened GeminiService

  /** The fixed query the card sends. */
  const InsightQuery: string := "分析当前游客流量与生态承载力风险"

  /** The fixed monitoring summary sent as context. */
  const InsightContext: string :=
    "Current visitor peak"
    + " at 12:00 is 1200, n"
    + "earing capacity (150"
    + "0). Water quality in"
    + "dex is 96 (Excellent"
    + ")."

  /** Shown when the gateway yields an empty or undefined insight. */
  const InsightUnavailable: string := "无法获取分析"

  const CaptionBusy: string := "分析中..."
  const CaptionIdle: string := "点击获取"

  datatype DashView = DashView(loadingInsight: bool, insight: string)

  const DashIdle: DashView := DashView(false, "")

  /** Starting a request sets only the loading flag: an earlier insight stays. */
  function InsightBegun(v: DashView): (w: DashView)
    ensures w.loadingInsight && w.insight == v.insight
  {
    v.(loadingInsight := true)
  }

  /** The state once the gateway resolves with `result`. */
  function InsightCompleted(v: DashView, result: Option<string>): (w: DashView)
    ensures !w.loadingInsight
    ensures TruthyText(result) ==> w.insight == result.value
    ensures !TruthyText(result) ==> w.insight == InsightUnavailable
    ensures w.insight != ""
  {
    DashView(false, OrElse(result, InsightUnavailable))
  }

  function CardCaption(v: DashView): (caption: string)
    ensures caption == CaptionBusy <==> v.loadingInsight
    ensures caption == CaptionIdle <==> !v.loadingInsight
  {
    if v.loadingInsight then CaptionBusy else CaptionIdle
  }

  /** `{insight && (...)}`: the panel renders for a non-empty insight. */
  predicate ShowsInsight(v: DashView) {
    v.insight != ""
  }

  /** Nothing shows at first; pending keeps showing what was shown before;
      every completed request shows a panel. */
  lemma InsightCycle(v: DashView, result: Option<string>)
    ensures !ShowsInsight(DashIdle) && CardCaption(DashIdle) == CaptionIdle
    ensures ShowsInsight(InsightBegun(v)) <==> ShowsInsight(v)
    ensures CardCaption(InsightBegun(v)) == CaptionBusy
    ensures ShowsInsight(InsightCompleted(InsightBegun(v), result))
    ensures CardCaption(InsightCompleted(InsightBegun(v), result)) == CaptionIdle
  {
  }

  /** The request always carries the fixed context and query. */
  lemma InsightPromptCarriesInputs()
    ensures Includes(PromptText(InsightRequest(InsightQuery, InsightContext).prompt), InsightContext)
    ensures Includes(PromptText(InsightRequest(InsightQuery, InsightContext).prompt), InsightQuery)
    ensures InsightRequest(InsightQuery, InsightContext).responseMimeType.None?
  {
  }

  /** What the card ends up showing, by the gateway's inputs. */
  lemma InsightShown(client: Client, remote: Request -> RemoteOutcome, v: DashView)
    ensures var w := InsightCompleted(InsightBegun(v), GetSmartInsight(client, remote, InsightQuery, InsightContext));
            var outcome := remote(InsightRequest(InsightQuery, InsightContext));
            && (!Configured(client) || outcome.Threw? ==> w.insight == MockInsight)
            && (Configured(client) && outcome.Returned? && TruthyText(outcome.text) ==> w.insight == outcome.text.value)
            && (Configured(client) && outcome.Returned? && !TruthyText(outcome.text) ==> w.insight == InsightUnavailable)
  {
  }

  // ----- The component -----

  class Cockpit {
    var loadingInsight: bool
    var insight: string

    function View(): DashView
      reads this
    {
      DashView(loadingInsight, insight)
    }

    constructor ()
      ensures View() == DashIdle
    {
      loadingInsight, insight := false, "";
    }

    /** The synchronous part of `generateInsight`, up to the `await`. */
    method Begin()
      modifies this
      ensures View() == InsightBegun(old(View()))
    {
      loadingInsight := true;
    }

    /** The part after the `await`. */
    method Complete(result: Option<string>)
      modifies this
      ensures View() == InsightCompleted(old(View()), result)
    {
      insight := OrElse(result, InsightUnavailable);
      loadingInsight := false;
    }

    /** The whole handler. */
    method GenerateInsight(client: Client, remote: Request -> RemoteOutcome)
      modifies this
      ensures View() == InsightCompleted(InsightBegun(old(View())), GetSmartInsight(client, remote, InsightQuery, InsightContext))
      ensures ShowsInsight(View()) && CardCaption(View()) == CaptionIdle
    {
      Begin();
      var result := GetSmartInsight(client, remote, InsightQuery, InsightContext);
      Complete(result);
    }
  }

}
