/** The generation gateway: one-time client set-up, the fallback catalogue,
    the three prompt builders and the three operations with their fallback
    policy. The remote model is the parameter `remote` and `JSON.parse` the
    parameter `parse`, so every operation is a function of its inputs. */
module GeminiService {

  import opened Wrappers
  import opened JsValues

  const ModelName: string := "gemini-2.5-flash"

  const JsonMimeType: string := "application/json"

  // ----- Client set-up -----

  /** The module-level state: the resolved key and whether the SDK client
      object was constructed (`ai !== null`). */
  datatype Client = Client(apiKey: string, ai: bool)

  /** The check every operation opens with: `ai` is non-null and `apiKey` is
      non-empty. */
  predicate Configured(c: Client) {
    c.ai && c.apiKey != ""
  }

  /** Module initialisation. `env` is `process.env.API_KEY`; whether the SDK
      constructor throws is the parameter `constructionThrows`. A throwing
      constructor leaves `ai` null instead of aborting. */
  method InitClient(env: Option<string>, constructionThrows: bool) returns (c: Client)
    ensures c.apiKey == (if TruthyText(env) then env.value else "")
    ensures c.ai <==> !constructionThrows
    ensures Configured(c) <==> TruthyText(env) && !constructionThrows
  {
    var apiKey := OrElse(env, "");
    var ai := false;
    if !constructionThrows {
      ai := true;
    }
    c := Client(apiKey, ai);
  }

  // ----- Fallback catalogue -----

  const MockTripSummary: string :=
    "为您规划的武夷山3日生态之旅，重点涵盖九"
    + "曲溪生态观测与岩茶文化体验。行程强度适中"
    + "，兼顾自然教育与休闲摄影。"
  const MockTripDays: seq<string> := [
    "D1: 上午抵达武夷山，入住度假区。下午"
    + "前往天游峰进行地质地貌考察，观察丹霞地貌"
    + "特征。傍晚探访武夷宫，了解宋代理学文化。",
    "D2: 清晨前往九曲溪进行竹筏漂流（观察"
    + "水生生态系统）。下午深入桐木关自然保护区"
    + "（需预约），参观国家公园宣教馆，进行生物"
    + "多样性速览。",
    "D3: 上午探访大红袍母树景区，体验岩骨"
    + "花香的茶文化生态。下午整理考察笔记，返程"
    + "。"
  ]
  const MockTripTips: string :=
    "保护区内严禁烟火；观察野生猴群时请保持距"
    + "离；建议携带长焦镜头拍摄鸟类。"
  const MockTripGear: string :=
    "防滑徒步鞋, 速干衣裤, 望远镜 (8x"
    + "42推荐), 防蚊液, 广角相机"

  const MockTripPlan: Json := JObject([
    ("summary", JString(MockTripSummary)),
    ("itinerary", JArray([JString(MockTripDays[0]), JString(MockTripDays[1]), JString(MockTripDays[2])])),
    ("tips", JString(MockTripTips)),
    ("gear", JString(MockTripGear))
  ])

  const MockSummary: string :=
    "1. 研究构建了基于游憩机会谱(ROS)"
    + "的评价体系，将国家公园划分为严格保护、生"
    + "态保育、传统利用等不同管控区。\n2. 实"
    + "证分析表明，核心保护区应严格禁止特许经营"
    + "，而一般控制区可适度开展生态教育与低干扰"
    + "游憩活动。\n3. 提出了特许经营准入的“"
    + "正面清单”与“负面清单”管理机制，为政策"
    + "制定提供了量化依据。"

  const MockInsight: string :=
    "当前游客流量接近承载力警戒线（80%），"
    + "且主要集中在核心景观区。建议立即启动二级"
    + "分流预案，通过智慧广播引导游客前往非热点"
    + "区域（如生态科普馆），同时暂停特定入口的"
    + "检票，以降低生态干扰风险。"

  /** The fallback plan is an object carrying all four keys, each truthy, with
      one string per day of a three-day itinerary. */
  lemma MockTripPlanShape()
    ensures Get(MockTripPlan, "summary") == Some(JString(MockTripSummary))
    ensures Get(MockTripPlan, "itinerary") == Some(JArray([JString(MockTripDays[0]), JString(MockTripDays[1]), JString(MockTripDays[2])]))
    ensures Get(MockTripPlan, "tips") == Some(JString(MockTripTips))
    ensures Get(MockTripPlan, "gear") == Some(JString(MockTripGear))
    ensures Truthy(MockTripPlan)
    ensures MockTripSummary != "" && MockTripTips != "" && MockTripGear != "" && MockSummary != "" && MockInsight != ""
    ensures |MockTripDays| == 3 && MockTripDays[0] != "" && MockTripDays[1] != "" && MockTripDays[2] != ""
  {
    var ms := MockTripPlan.members;
    assert LastMember(ms, "gear") == Some(ms[3].1);
    assert ms[3].0 != "tips" && ms[..3][2].0 == "tips";
    assert LastMember(ms, "tips") == LastMember(ms[..3], "tips");
    assert ms[..3][2].0 != "itinerary" && ms[..3][..2][1].0 == "itinerary";
    assert ms[3].0 != "itinerary";
    assert ms[..3][..2][1].0 != "summary" && ms[..3][..2][..1][0].0 == "summary";
  }

  // ----- Requests -----

  /** The prompt of a request, by operation and parameters; its text is
      `PromptText`. */
  datatype Prompt =
    | TripPrompt(destination: string, days: IntOrNaN, tripType: string, interests: string)
    | SummaryPrompt(title: string, paperAbstract: string)
    | InsightPrompt(query: string, contextData: string)

  /** What the gateway sends: the model name, the prompt and, optionally, the
      response MIME type. The service sees the prompt's text. */
  datatype Request = Request(model: string, prompt: Prompt, responseMimeType: Option<string>)

  /** What one remote call does: throw, or return a response whose `text` may
      be undefined. */
  datatype RemoteOutcome = Threw | Returned(text: Option<string>)

  /** The pieces of the trip prompt; the interpolated values are pieces 1, 3,
      5 and 7, and the four key names follow the instructions. (Long literals
      are written in short chunks, which keeps the proofs cheap.) */
  function TripPromptPieces(destination: string, days: IntOrNaN, tripType: string, interests: string): seq<string> {
    [ "\n      Create a detailed ", NumberText(days), "-day itinerary for a ", tripType, " trip to ", destination,
      ".\n      Focus on ", interests,
      ".\n      Include:\n      "
      + "1. Daily schedule with "
      + "times.\n      2. "
      + "Specific spots to visit "
      + "(focus on ecological "
      + "and educational "
      + "value).\n      3. Tips "
      + "for sustainable travel "
      + "in this protected "
      + "area.\n      4. Required "
      + "gear or preparation.\n   "
      + "   \n      Format the "
      + "output as a structured "
      + "JSON object with keys: ",
      "'summary'", ", ", "'itinerary'", " (array of strings, one per day), ", "'tips'", ", ", "'gear'",
      ".\n      Do not use "
      + "markdown formatting in "
      + "the JSON string.\n    " ]
  }

  /** The trip prompt: day count, trip type, destination and interests, then
      the instructions naming the four keys of the expected JSON object. */
  function TripPromptText(destination: string, days: IntOrNaN, tripType: string, interests: string): (p: string)
    ensures Includes(p, NumberText(days)) && Includes(p, tripType)
    ensures Includes(p, destination) && Includes(p, interests)
    ensures Includes(p, "'summary'") && Includes(p, "'itinerary'")
    ensures Includes(p, "'tips'") && Includes(p, "'gear'")
  {
    var pieces := TripPromptPieces(destination, days, tripType, interests);
    ConcatIncludesPiece(pieces, 1);
    ConcatIncludesPiece(pieces, 3);
    ConcatIncludesPiece(pieces, 5);
    ConcatIncludesPiece(pieces, 7);
    ConcatIncludesPiece(pieces, 9);
    ConcatIncludesPiece(pieces, 11);
    ConcatIncludesPiece(pieces, 13);
    ConcatIncludesPiece(pieces, 15);
    Concat(pieces)
  }

  /** The summary prompt: a fixed instruction, then the title and the abstract. */
  function SummaryPromptText(title: string, paperAbstract: string): (p: string)
    ensures Includes(p, title) && Includes(p, paperAbstract)
  {
    var pieces := [
      "\n      Act as an "
      + "academic researcher in "
      + "the field of National "
      + "Parks and Tourism "
      + "Management.\n      "
      + "Summarize the following "
      + "paper abstract into 3 "
      + "key bullet points "
      + "focusing on practical "
      + "implications for park "
      + "management.\n      \n     "
      + " Title: ",
      title, "\n      Abstract: ", paperAbstract, "\n    " ];
    ConcatIncludesPiece(pieces, 1);
    ConcatIncludesPiece(pieces, 3);
    Concat(pieces)
  }

  /** The insight prompt: a fixed instruction, then the context data and the
      query. */
  function InsightPromptText(query: string, contextData: string): (p: string)
    ensures Includes(p, contextData) && Includes(p, query)
  {
    var pieces := [
      "\n          You are an "
      + "expert AI consultant "
      + "for the \"National Park "
      + "Smart Management "
      + "Cockpit\".\n          "
      + "Based on the user query "
      + "and the provided "
      + "dashboard data context, "
      + "provide a strategic "
      + "insight or "
      + "recommendation.\n        "
      + "  Keep it concise "
      + "(under 100 words) and "
      + "professional.\n          "
      + "\n          Context "
      + "Data: ",
      contextData, "\n          User Query: ", query, "\n        " ];
    ConcatIncludesPiece(pieces, 1);
    ConcatIncludesPiece(pieces, 3);
    Concat(pieces)
  }

  /** The text a prompt is rendered to: the template literal of its operation. */
  function PromptText(p: Prompt): string {
    match p
    case TripPrompt(destination, days, tripType, interests) => TripPromptText(destination, days, tripType, interests)
    case SummaryPrompt(title, paperAbstract) => SummaryPromptText(title, paperAbstract)
    case InsightPrompt(query, contextData) => InsightPromptText(query, contextData)
  }

  /** The trip request: the shared model, a JSON response, and a prompt
      carrying the four parameters. */
  function TripRequest(destination: string, days: IntOrNaN, tripType: string, interests: string): (q: Request)
    ensures q.model == ModelName && q.responseMimeType == Some(JsonMimeType)
    ensures Includes(PromptText(q.prompt), destination) && Includes(PromptText(q.prompt), NumberText(days))
    ensures Includes(PromptText(q.prompt), tripType) && Includes(PromptText(q.prompt), interests)
  {
    Request(ModelName, TripPrompt(destination, days, tripType, interests), Some(JsonMimeType))
  }

  /** The summary request: the shared model, no response type, and a prompt
      carrying the title and the abstract. */
  function SummaryRequest(title: string, paperAbstract: string): (q: Request)
    ensures q.model == ModelName && q.responseMimeType.None?
    ensures Includes(PromptText(q.prompt), title) && Includes(PromptText(q.prompt), paperAbstract)
  {
    Request(ModelName, SummaryPrompt(title, paperAbstract), None)
  }

  /** The insight request: the shared model, no response type, and a prompt
      carrying the query and the context data. */
  function InsightRequest(query: string, contextData: string): (q: Request)
    ensures q.model == ModelName && q.responseMimeType.None?
    ensures Includes(PromptText(q.prompt), query) && Includes(PromptText(q.prompt), contextData)
  {
    Request(ModelName, InsightPrompt(query, contextData), None)
  }

  // ----- Operations -----

  /** `generateTripPlan`. Unconfigured: the fallback plan, whatever `remote`
      and `parse` are, so no call is made. Configured: one call; a throw or a
      text that does not parse yields the whole fallback plan; otherwise the
      parsed value, of whatever shape. A missing or empty text is parsed as
      `'{}'`. */
  function GenerateTripPlan(client: Client, remote: Request -> RemoteOutcome, parse: string -> Option<Json>,
                            destination: string, days: IntOrNaN, tripType: string, interests: string): (r: Json)
    ensures !Configured(client) ==> r == MockTripPlan
    ensures Configured(client) && remote(TripRequest(destination, days, tripType, interests)).Threw?
            ==> r == MockTripPlan
    ensures Configured(client) && remote(TripRequest(destination, days, tripType, interests)).Returned?
            ==> var text := OrElse(remote(TripRequest(destination, days, tripType, interests)).text, "{}");
                r == (if parse(text).Some? then parse(text).value else MockTripPlan)
    ensures r == MockTripPlan || (Configured(client) && exists t :: parse(t) == Some(r))
  {
    if !Configured(client) then MockTripPlan
    else
      match remote(TripRequest(destination, days, tripType, interests))
      case Threw => MockTripPlan
      case Returned(text) =>
        match parse(OrElse(text, "{}"))
        case None => MockTripPlan
        case Some(v) => v
  }

  /** The shared policy of the two text operations: the response text as it
      is, even empty or undefined, or the fallback if the call throws. */
  function TextResult(outcome: RemoteOutcome, fallback: string): (r: Option<string>)
    ensures outcome.Threw? ==> r == Some(fallback)
    ensures outcome.Returned? ==> r == outcome.text
  {
    match outcome
    case Threw => Some(fallback)
    case Returned(text) => text
  }

  /** `summarizePaper`: the fallback summary when unconfigured or when the call
      throws, else the response text unchanged. */
  function SummarizePaper(client: Client, remote: Request -> RemoteOutcome, title: string, paperAbstract: string): (r: Option<string>)
    ensures !Configured(client) ==> r == Some(MockSummary)
    ensures Configured(client) && remote(SummaryRequest(title, paperAbstract)).Threw? ==> r == Some(MockSummary)
    ensures Configured(client) && remote(SummaryRequest(title, paperAbstract)).Returned? ==> r == remote(SummaryRequest(title, paperAbstract)).text
  {
    if !Configured(client) then Some(MockSummary)
    else TextResult(remote(SummaryRequest(title, paperAbstract)), MockSummary)
  }

  /** `getSmartInsight`: the fallback insight when unconfigured or when the
      call throws, else the response text unchanged. */
  function GetSmartInsight(client: Client, remote: Request -> RemoteOutcome, query: string, contextData: string): (r: Option<string>)
    ensures !Configured(client) ==> r == Some(MockInsight)
    ensures Configured(client) && remote(InsightRequest(query, contextData)).Threw? ==> r == Some(MockInsight)
    ensures Configured(client) && remote(InsightRequest(query, contextData)).Returned? ==> r == remote(InsightRequest(query, contextData)).text
  {
    if !Configured(client) then Some(MockInsight)
    else TextResult(remote(InsightRequest(query, contextData)), MockInsight)
  }

  // ----- Properties of the policy -----

  /** "Makes no remote call": unconfigured, the three results do not depend on
      the remote service or on the JSON parser at all. */
  lemma UnconfiguredIgnoresRemote(client: Client, remote1: Request -> RemoteOutcome, remote2: Request -> RemoteOutcome,
                                  parse1: string -> Option<Json>, parse2: string -> Option<Json>,
                                  destination: string, days: IntOrNaN, tripType: string, interests: string,
                                  title: string, paperAbstract: string, query: string, contextData: string)
    requires !Configured(client)
    ensures GenerateTripPlan(client, remote1, parse1, destination, days, tripType, interests)
            == GenerateTripPlan(client, remote2, parse2, destination, days, tripType, interests)
    ensures SummarizePaper(client, remote1, title, paperAbstract) == SummarizePaper(client, remote2, title, paperAbstract)
    ensures GetSmartInsight(client, remote1, query, contextData) == GetSmartInsight(client, remote2, query, contextData)
  {
  }

  /** Empty or missing text is not replaced by the fallback plan: it is parsed
      as `'{}'`, which gives an empty object, and an empty object is not the
      fallback. */
  lemma EmptyTripTextGivesEmptyObject(client: Client, remote: Request -> RemoteOutcome, parse: string -> Option<Json>,
                                      destination: string, days: IntOrNaN, tripType: string, interests: string)
    requires Configured(client)
    requires parse("{}") == Some(JObject([]))
    requires remote(TripRequest(destination, days, tripType, interests)) in {Returned(None), Returned(Some(""))}
    ensures GenerateTripPlan(client, remote, parse, destination, days, tripType, interests) == JObject([])
    ensures JObject([]) != MockTripPlan
  {
  }

  /** No shape check: any value the parser yields for a non-empty text is the
      result, `null` and values without the four keys included. */
  lemma ParsedValueReturnedAsIs(client: Client, remote: Request -> RemoteOutcome, parse: string -> Option<Json>,
                                destination: string, days: IntOrNaN, tripType: string, interests: string,
                                t: string, v: Json)
    requires Configured(client) && t != ""
    requires remote(TripRequest(destination, days, tripType, interests)) == Returned(Some(t))
    requires parse(t) == Some(v)
    ensures GenerateTripPlan(client, remote, parse, destination, days, tripType, interests) == v
  {
  }

  /** `summarizePaper` never substitutes an empty or undefined text: whatever
      a configured, successful call returns is the result. */
  lemma SummaryTextReturnedAsIs(client: Client, remote: Request -> RemoteOutcome, title: string, paperAbstract: string,
                                text: Option<string>)
    requires Configured(client)
    requires remote(SummaryRequest(title, paperAbstract)) == Returned(text)
    ensures SummarizePaper(client, remote, title, paperAbstract) == text
  {
  }

  /** `getSmartInsight` never substitutes an empty or undefined text either. */
  lemma InsightTextReturnedAsIs(client: Client, remote: Request -> RemoteOutcome, query: string, contextData: string,
                                text: Option<string>)
    requires Configured(client)
    requires remote(InsightRequest(query, contextData)) == Returned(text)
    ensures GetSmartInsight(client, remote, query, contextData) == text
  {
  }

}
