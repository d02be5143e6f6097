/** The trip-planner view: the `handleGenerate` life cycle over `loading`,
    `error` and `plan`, the branches the view renders from them, the gear and
    tips defaults, and the day cards with their sanitised text. */
module TripPlanner {

  import opened Wrappers
  import opened JsValues
  import opened GeminiService

  const GenerateFailed: string := "生成路线失败，请稍后重试。"
  const DefaultGear: string := "徒步鞋, 防晒霜, 雨具, 望远镜"
  const DefaultTips: string := "请勿投喂野生动物，带走所有垃圾"
  const ButtonBusy: string := "正在规划中..."
  const ButtonIdle: string := "生成智能行程"

  /** The form the handler reads its four arguments from. */
  datatype FormData = FormData(destination: string, days: IntOrNaN, tripType: string, interests: string)

  const InitialForm: FormData := FormData("武夷山国家公园", Int(3), "生态旅游", "观鸟, 茶文化, 摄影")

  /** How the awaited gateway promise settles. */
  datatype Settlement = Resolved(value: Json) | Rejected

  // ----- Invocation state -----

  /** The three state variables the handler drives; `plan` starts as `null`. */
  datatype TripView = TripView(loading: bool, error: string, plan: Json)

  const Idle: TripView := TripView(false, "", JNull)

  /** The state while a request is pending: whatever came before, loading is
      set, the error is cleared and the plan is reset to `null`. */
  const InFlight: TripView := TripView(true, "", JNull)

  /** The state once the promise settles: the result is stored (resolved) or
      the error message is set (rejected); `finally` clears loading either way. */
  function Completed(v: TripView, s: Settlement): (w: TripView)
    ensures !w.loading
    ensures s.Resolved? ==> w.plan == s.value && w.error == v.error
    ensures s.Rejected? ==> w.error == GenerateFailed && w.plan == v.plan
  {
    match s
    case Resolved(p) => v.(plan := p, loading := false)
    case Rejected => v.(error := GenerateFailed, loading := false)
  }

  /** What every state the handler can produce satisfies: while loading there
      is neither a plan nor an error, and an error comes without a plan. */
  predicate Consistent(v: TripView) {
    && (v.loading ==> v.error == "" && v.plan == JNull)
    && (v.error != "" ==> v.error == GenerateFailed && v.plan == JNull)
  }

  lemma ConsistentStates(v: TripView, s: Settlement)
    requires Consistent(v) && v.loading
    ensures Consistent(Idle) && Consistent(InFlight)
    ensures Consistent(Completed(v, s))
  {
  }

  // ----- Rendering -----

  /** The four conditional blocks of the results area. */
  datatype Section = ErrorBanner | Placeholder | Spinner | PlanPanel

  /** Each block renders exactly under its own JSX condition. */
  function Sections(v: TripView): (r: set<Section>)
    ensures ErrorBanner in r <==> v.error != ""
    ensures Placeholder in r <==> !Truthy(v.plan) && !v.loading && v.error == ""
    ensures Spinner in r <==> v.loading
    ensures PlanPanel in r <==> Truthy(v.plan)
    ensures r <= {ErrorBanner, Placeholder, Spinner, PlanPanel}
  {
    (if v.error != "" then {ErrorBanner} else {})
    + (if !Truthy(v.plan) && !v.loading && v.error == "" then {Placeholder} else {})
    + (if v.loading then {Spinner} else {})
    + (if Truthy(v.plan) then {PlanPanel} else {})
  }

  /** In every consistent state exactly one block is rendered. */
  lemma ConsistentShowsOneSection(v: TripView)
    requires Consistent(v)
    ensures |Sections(v)| == 1
    ensures v.loading ==> Sections(v) == {Spinner}
    ensures !v.loading && v.error != "" ==> Sections(v) == {ErrorBanner}
    ensures !v.loading && v.error == "" ==> Sections(v) == (if Truthy(v.plan) then {PlanPanel} else {Placeholder})
  {
  }

  /** While a request is pending only the spinner shows; a resolved request
      shows the plan, or the placeholder again if the plan is falsy (`null`,
      `0`, `false` or `""`); a rejected one shows only the error. */
  lemma CycleSections(p: Json)
    ensures Sections(InFlight) == {Spinner}
    ensures Sections(Completed(InFlight, Resolved(p))) == (if Truthy(p) then {PlanPanel} else {Placeholder})
    ensures Sections(Completed(InFlight, Rejected)) == {ErrorBanner}
  {
  }

  /** The generate button is disabled exactly while loading. */
  predicate ButtonDisabled(v: TripView) {
    v.loading
  }

  function ButtonLabel(v: TripView): (caption: string)
    ensures caption == ButtonBusy <==> ButtonDisabled(v)
    ensures caption == ButtonIdle <==> !ButtonDisabled(v)
  {
    if v.loading then ButtonBusy else ButtonIdle
  }

  /** `plan.key || fallback`: the field when it is truthy, else the fixed
      default string. The view reads fields only under `plan && ...`. */
  function FieldOr(plan: Json, key: string, fallback: string): (r: Json)
    requires Truthy(plan)
    ensures Get(plan, key).Some? && Truthy(Get(plan, key).value) ==> r == Get(plan, key).value
    ensures !(Get(plan, key).Some? && Truthy(Get(plan, key).value)) ==> r == JString(fallback)
    ensures fallback != "" ==> Truthy(r)
  {
    var field := Get(plan, key);
    if field.Some? && Truthy(field.value) then field.value else JString(fallback)
  }

  /** The gear line: the plan's own gear whenever it is truthy, else the
      default, and never falsy. */
  function GearShown(plan: Json): (r: Json)
    requires Truthy(plan)
    ensures Get(plan, "gear").Some? && Truthy(Get(plan, "gear").value) ==> r == Get(plan, "gear").value
    ensures Get(plan, "gear") == Some(r) || r == JString(DefaultGear)
    ensures Truthy(r)
  {
    FieldOr(plan, "gear", DefaultGear)
  }

  /** The tips line: the plan's own tips whenever they are truthy, else the
      default, and never falsy. */
  function TipsShown(plan: Json): (r: Json)
    requires Truthy(plan)
    ensures Get(plan, "tips").Some? && Truthy(Get(plan, "tips").value) ==> r == Get(plan, "tips").value
    ensures Get(plan, "tips") == Some(r) || r == JString(DefaultTips)
    ensures Truthy(r)
  {
    FieldOr(plan, "tips", DefaultTips)
  }

  /** Missing or falsy gear and tips show the defaults; the fallback plan
      shows its own. */
  lemma GearAndTipsShown(plan: Json)
    requires Truthy(plan)
    ensures Get(plan, "gear").None? ==> GearShown(plan) == JString(DefaultGear)
    ensures Get(plan, "tips").None? ==> TipsShown(plan) == JString(DefaultTips)
    ensures Truthy(GearShown(plan)) && Truthy(TipsShown(plan))
    ensures GearShown(MockTripPlan) == JString(MockTripGear)
    ensures TipsShown(MockTripPlan) == JString(MockTripTips)
  {
    MockTripPlanShape();
  }

  // ----- Day cards -----

  /** The characters the pattern `/["{}[\]]/g` matches. */
  const Stripped: set<char> := {'"', '{', '}', '[', ']'}

  /** The longest text a card shows before its `...`. */
  const CardLimit: nat := 300

  /** `.replace(/["{}[\]]/g, ' ')`: each matched character becomes a space,
      every other character stays. */
  function Blank(s: string): (r: string)
    ensures |r| == |s|
    ensures forall k :: 0 <= k < |s| ==> r[k] == (if s[k] in Stripped then ' ' else s[k])
  {
    if s == [] then [] else [if s[0] in Stripped then ' ' else s[0]] + Blank(s[1..])
  }

  /** `.slice(0, 300)` of the blanked text. */
  function Excerpt(s: string): (r: string)
    ensures |r| == (if |s| < CardLimit then |s| else CardLimit)
    ensures forall k :: 0 <= k < |r| ==> r[k] !in Stripped
    ensures forall k :: 0 <= k < |r| ==> r[k] == (if s[k] in Stripped then ' ' else s[k])
  {
    var b := Blank(s);
    if |b| < CardLimit then b else b[..CardLimit]
  }

  /** Text without the stripped characters and within the limit is shown
      unchanged. */
  lemma ExcerptKeepsCleanText(s: string)
    requires |s| <= CardLimit
    requires forall k :: 0 <= k < |s| ==> s[k] !in Stripped
    ensures Excerpt(s) == s
  {
  }

  /** One day card: the badge `D{index + 1}`, the heading `第 {index + 1} 天行程`
      and the excerpt followed by `...`. */
  datatype DayCard = DayCard(badge: string, heading: string, body: string)

  function DayCardOf(index: nat, stringified: string): (c: DayCard)
    ensures c.badge == "D" + DecimalText(index + 1) && DecimalValue(c.badge[1..]) == index + 1
    ensures c.heading == "第 " + DecimalText(index + 1) + " 天行程"
    ensures c.body == Excerpt(stringified) + "..."
    ensures |c.body| <= CardLimit + 3
  {
    DecimalRoundTrip(index + 1);
    var n := DecimalText(index + 1);
    assert ("D" + n)[1..] == n;
    DayCard("D" + n, "第 " + n + " 天行程", Excerpt(stringified) + "...")
  }

  /** `plan.itinerary?.map(...)`: no cards when the itinerary is `undefined`
      or `null`, one card per element of an array (the element passed through
      `stringify`, the `JSON.stringify` of the source), and `None` when the
      itinerary is any other value: calling `map` on it throws a `TypeError`
      while rendering. The cards render only under `plan && ...`. */
  function DayCards(plan: Json, stringify: Json -> string): (r: Option<seq<DayCard>>)
    requires Truthy(plan)
    ensures Get(plan, "itinerary").None? || Get(plan, "itinerary") == Some(JNull) ==> r == Some([])
    ensures Get(plan, "itinerary").Some? && Get(plan, "itinerary").value.JArray? ==>
              var items := Get(plan, "itinerary").value.items;
              r.Some? && |r.value| == |items|
              && forall k :: 0 <= k < |items| ==> r.value[k] == DayCardOf(k, stringify(items[k]))
    ensures r.None? <==> Get(plan, "itinerary").Some? && !Get(plan, "itinerary").value.JNull?
                         && !Get(plan, "itinerary").value.JArray?
  {
    match Get(plan, "itinerary")
    case None => Some([])
    case Some(JNull) => Some([])
    case Some(JArray(items)) => Some(seq(|items|, k requires 0 <= k < |items| => DayCardOf(k, stringify(items[k]))))
    case Some(_) => None
  }

  /** The fallback plan renders three cards, badged D1 to D3. */
  lemma MockPlanCards(stringify: Json -> string)
    ensures DayCards(MockTripPlan, stringify).Some? && |DayCards(MockTripPlan, stringify).value| == 3
    ensures forall k :: 0 <= k < 3 ==> DayCards(MockTripPlan, stringify).value[k].badge == "D" + DecimalText(k + 1)
  {
    MockTripPlanShape();
  }

  // ----- The component -----

  class Planner {
    var form: FormData
    var loading: bool
    var error: string
    var plan: Json

    function View(): TripView
      reads this
    {
      TripView(loading, error, plan)
    }

    constructor ()
      ensures form == InitialForm && View() == Idle
    {
      form := InitialForm;
      loading, error, plan := false, "", JNull;
    }

    /** The form's `onChange` handlers replace one field at a time. */
    method SetForm(f: FormData)
      modifies this
      ensures form == f && View() == old(View())
    {
      form := f;
    }

    /** The synchronous part of `handleGenerate`, up to the `await`. */
    method Begin()
      modifies this
      ensures View() == InFlight && form == old(form)
    {
      loading := true;
      error := "";
      plan := JNull;
    }

    /** The part after the `await`: the `try` or `catch` branch, then `finally`. */
    method Complete(s: Settlement)
      modifies this
      ensures View() == Completed(old(View()), s) && form == old(form)
      ensures old(Consistent(View()) && loading) ==> Consistent(View())
    {
      match s {
        case Resolved(p) =>
          plan := p;
        case Rejected =>
          error := GenerateFailed;
      }
      loading := false;
    }

    /** The whole handler. The gateway never rejects, so the `catch` branch is
        never taken and the error banner never shows. */
    method HandleGenerate(client: Client, remote: Request -> RemoteOutcome, parse: string -> Option<Json>)
      modifies this
      ensures form == old(form)
      ensures View() == Completed(InFlight, Resolved(GenerateTripPlan(client, remote, parse,
                                  form.destination, form.days, form.tripType, form.interests)))
      ensures !loading && error == "" && ErrorBanner !in Sections(View())
    {
      Begin();
      var result := GenerateTripPlan(client, remote, parse, form.destination, form.days, form.tripType, form.interests);
      Complete(Resolved(result));
    }
  }

}
