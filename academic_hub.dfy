/** The academic hub: the title search over the paper catalogue and the
    `handleSummarize` life cycle over `activePaper`, `loadingSummary` and
    `summary`, with the summary panel they select. */
module AcademicHub {

  import opened Wrappers
  import opened JsValues
  import opened Types
  import opened GeminiService

  /** Shown when the gateway yields an empty or undefined summary. */
  const SummaryUnavailable: string := "无法生成摘要"

  /** The fixed catalogue the hub lists and searches. */
  const MockPapers: seq<AcademicPaper> := [
    AcademicPaper(
      "1",
      "基于游憩机会谱(ROS)的国家公园特许经"
      + "营适宜性评价",
      ["张三", "李四"],
      "自然资源学报",
      2023,
      "本研究构建了基于ROS理论的国家公园特许"
      + "经营适宜性评价指标体系，以三江源国家公园"
      + "为例，探讨了不同管控分区的经营活动准入机"
      + "制。结果表明..."),
    AcademicPaper(
      "2",
      "智慧技术在国家公园生态监测中的应用现状与"
      + "展望",
      ["王五", "赵六"],
      "生态学报",
      2024,
      "随着物联网和人工智能技术的发展，智慧监测"
      + "已成为国家公园管理的重要手段。本文综述了"
      + "红外相机、无人机及卫星遥感在生物多样性监"
      + "测中的应用案例..."),
    AcademicPaper(
      "3",
      "游客拥挤感知对国家公园环境责任行为的影响"
      + "机制",
      ["陈七", "刘八"],
      "旅游学刊",
      2023,
      "基于刺激-机体-反应(S-O-R)理论，"
      + "构建了游客拥挤感知、环境情感与环境责任行"
      + "为的关系模型。实证分析发现，感知拥挤通过"
      + "负面情绪显著抑制环境责任行为...")
  ]

  // ----- Title search -----

  /** `papers.filter(p => p.title.includes(term))`. */
  function FilterByTitle(papers: seq<AcademicPaper>, term: string): (r: seq<AcademicPaper>)
    ensures |r| <= |papers|
    ensures forall p :: p in r <==> p in papers && Includes(p.title, term)
    ensures forall p :: multiset(r)[p] == (if Includes(p.title, term) then multiset(papers)[p] else 0)
  {
    assert papers != [] ==> papers == [papers[0]] + papers[1..];
    if papers == [] then []
    else (if Includes(papers[0].title, term) then [papers[0]] else []) + FilterByTitle(papers[1..], term)
  }

  /** `r` is `s` with some elements dropped, the rest in their order. */
  predicate Subsequence<T(==)>(r: seq<T>, s: seq<T>) {
    if r == [] then true
    else if s == [] then false
    else (r[0] == s[0] && Subsequence(r[1..], s[1..])) || Subsequence(r, s[1..])
  }

  /** The matches keep their catalogue order. */
  lemma {:induction false} FilterKeepsOrder(papers: seq<AcademicPaper>, term: string)
    ensures Subsequence(FilterByTitle(papers, term), papers)
  {
    if papers != [] {
      var rest := FilterByTitle(papers[1..], term);
      FilterKeepsOrder(papers[1..], term);
      if Includes(papers[0].title, term) {
        assert FilterByTitle(papers, term) == [papers[0]] + rest;
        assert ([papers[0]] + rest)[1..] == rest;
      } else {
        assert FilterByTitle(papers, term) == rest;
      }
    }
  }

  /** Every title contains the empty string, so an empty search lists all. */
  lemma {:induction false} EmptyTermKeepsAll(papers: seq<AcademicPaper>)
    ensures FilterByTitle(papers, "") == papers
  {
    if papers != [] {
      IncludesEmpty(papers[0].title);
      EmptyTermKeepsAll(papers[1..]);
      assert [papers[0]] + papers[1..] == papers;
    }
  }

  /** Filtering a catalogue in two parts gives the two parts' matches. */
  lemma {:induction false} FilterAppend(a: seq<AcademicPaper>, b: seq<AcademicPaper>, term: string)
    ensures FilterByTitle(a + b, term) == FilterByTitle(a, term) + FilterByTitle(b, term)
  {
    if a == [] {
      assert a + b == b;
    } else {
      assert (a + b)[0] == a[0];
      assert (a + b)[1..] == a[1..] + b;
      FilterAppend(a[1..], b, term);
    }
  }

  /** A search for an exact title lists that paper. */
  lemma ExactTitleIsFound(papers: seq<AcademicPaper>, p: AcademicPaper)
    requires p in papers
    ensures p in FilterByTitle(papers, p.title)
  {
    IncludesSelf(p.title);
  }

  // ----- Summary life cycle -----

  datatype HubView = HubView(activePaper: Option<AcademicPaper>, loadingSummary: bool, summary: string)

  const HubIdle: HubView := HubView(None, false, "")

  /** The state after the three synchronous updates at the start of the
      handler, whatever the state before. */
  function SummaryBegun(paper: AcademicPaper): (v: HubView)
    ensures v.activePaper == Some(paper) && v.loadingSummary && v.summary == ""
  {
    HubView(Some(paper), true, "")
  }

  /** The state once the gateway resolves with `result`: the summary is the
      result or, when it is empty or undefined, the fixed message. */
  function SummaryCompleted(v: HubView, result: Option<string>): (w: HubView)
    ensures w.activePaper == v.activePaper && !w.loadingSummary
    ensures TruthyText(result) ==> w.summary == result.value
    ensures !TruthyText(result) ==> w.summary == SummaryUnavailable
    ensures w.summary != ""
  {
    v.(summary := OrElse(result, SummaryUnavailable), loadingSummary := false)
  }

  /** What the summary area renders. */
  datatype Panel = NoPanel | Analyzing(title: string) | Showing(title: string, text: string)

  function PanelOf(v: HubView): (p: Panel)
    ensures p.NoPanel? <==> v.activePaper.None?
    ensures p.Analyzing? <==> v.activePaper.Some? && v.loadingSummary
    ensures p.Showing? <==> v.activePaper.Some? && !v.loadingSummary
    ensures !p.NoPanel? ==> p.title == v.activePaper.value.title
    ensures p.Showing? ==> p.text == v.summary
  {
    match v.activePaper
    case None => NoPanel
    case Some(paper) =>
      if v.loadingSummary then Analyzing(paper.title) else Showing(paper.title, v.summary)
  }

  /** No panel at first; the indicator under the chosen title while pending;
      then a non-empty text under the same title. */
  lemma SummaryCycle(paper: AcademicPaper, result: Option<string>)
    ensures PanelOf(HubIdle) == NoPanel
    ensures PanelOf(SummaryBegun(paper)) == Analyzing(paper.title)
    ensures PanelOf(SummaryCompleted(SummaryBegun(paper), result))
            == Showing(paper.title, OrElse(result, SummaryUnavailable))
    ensures OrElse(result, SummaryUnavailable) != ""
  {
  }

  /** What the handler ends up showing, by the gateway's inputs: the mock
      summary when unconfigured or when the call throws, the returned text
      when it is non-empty, and the fixed message otherwise. */
  lemma SummaryShown(client: Client, remote: Request -> RemoteOutcome, paper: AcademicPaper)
    ensures var w := SummaryCompleted(SummaryBegun(paper), SummarizePaper(client, remote, paper.title, paper.paperAbstract));
            var outcome := remote(SummaryRequest(paper.title, paper.paperAbstract));
            && (!Configured(client) || outcome.Threw? ==> w.summary == MockSummary)
            && (Configured(client) && outcome.Returned? && TruthyText(outcome.text) ==> w.summary == outcome.text.value)
            && (Configured(client) && outcome.Returned? && !TruthyText(outcome.text) ==> w.summary == SummaryUnavailable)
  {
  }

  // ----- The component -----

  class Hub {
    var searchTerm: string
    var activePaper: Option<AcademicPaper>
    var loadingSummary: bool
    var summary: string

    function View(): HubView
      reads this
    {
      HubView(activePaper, loadingSummary, summary)
    }

    /** The papers listed for the current search term, in catalogue order. */
    function Results(): (r: seq<AcademicPaper>)
      reads this
      ensures |r| <= |MockPapers|
      ensures forall p :: p in r <==> p in MockPapers && Includes(p.title, searchTerm)
      ensures forall p :: multiset(r)[p] == (if Includes(p.title, searchTerm) then multiset(MockPapers)[p] else 0)
      ensures Subsequence(r, MockPapers)
    {
      FilterKeepsOrder(MockPapers, searchTerm);
      FilterByTitle(MockPapers, searchTerm)
    }

    constructor ()
      ensures searchTerm == "" && View() == HubIdle
      ensures Results() == MockPapers
    {
      searchTerm := "";
      activePaper, loadingSummary, summary := None, false, "";
      EmptyTermKeepsAll(MockPapers);
    }

    /** The search box's `onChange`. */
    method SetSearchTerm(t: string)
      modifies this
      ensures searchTerm == t && View() == old(View())
    {
      searchTerm := t;
    }

    /** The synchronous part of `handleSummarize`, up to the `await`. */
    method Begin(paper: AcademicPaper)
      modifies this
      ensures View() == SummaryBegun(paper) && searchTerm == old(searchTerm)
    {
      activePaper := Some(paper);
      loadingSummary := true;
      summary := "";
    }

    /** The part after the `await`. */
    method Complete(result: Option<string>)
      modifies this
      ensures View() == SummaryCompleted(old(View()), result) && searchTerm == old(searchTerm)
    {
      summary := OrElse(result, SummaryUnavailable);
      loadingSummary := false;
    }

    /** The whole handler: the gateway gets the paper's title and abstract. */
    method HandleSummarize(client: Client, remote: Request -> RemoteOutcome, paper: AcademicPaper)
      modifies this
      ensures View() == SummaryCompleted(SummaryBegun(paper), SummarizePaper(client, remote, paper.title, paper.paperAbstract))
      ensures searchTerm == old(searchTerm)
      ensures PanelOf(View()).Showing? && PanelOf(View()).title == paper.title && summary != ""
    {
      Begin(paper);
      var result := SummarizePaper(client, remote, paper.title, paper.paperAbstract);
      Complete(result);
    }
  }

}
