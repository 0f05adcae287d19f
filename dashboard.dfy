/**
 * One press of "Generate Result" in app1.py: normalise the ticker, refuse a
 * blank one, otherwise fetch the three payloads and render the four tabs and
 * the optional download, in the script's order. An uncaught exception in a
 * tab stops the script, so the tabs after it and the download are not
 * reached.
 */
module Dashboard {
  import opened PyJson
  import opened Adapters
  import opened Ticker
  import opened Presentation
  import opened Recommendations
  import opened Insights
  import opened MetricsDownload

  /** The provider, as the outcome of each of its three calls for a ticker. */
  datatype Client = Client(
    profile: string -> Outcome,
    metrics: string -> Outcome,
    recommendations: string -> Outcome)

  datatype Page = Page(
    ticker: string,
    profile: Section<ProfileView>,
    metrics: Section<MetricsView>,
    recommendations: Section<Totals>,
    insight: Section<Label>,
    download: Option<MetricsExport>)

  datatype Response = TickerPrompt(message: string) | Rendered(page: Page)

  const EnterTickerMessage: string := "Please enter a valid company ticker."

  predicate Halted<T>(s: Section<T>)
  {
    s.Raised? || s.NotReached?
  }

  /** A tab rendered after `prev`: not reached when `prev` raised or was not reached itself. */
  function Follow<S, T>(prev: Section<S>, next: Section<T>): (s: Section<T>)
    ensures Halted(prev) ==> s.NotReached?
    ensures !Halted(prev) ==> s == next
  {
    if Halted(prev) then NotReached else next
  }

  /** The request cycle, with the Insights tab given as a parameter. */
  function Respond(raw: string, download: bool, client: Client,
                   insightTab: Section<Totals> -> Section<Label>): Response
  {
    var ticker := NormalizeTicker(raw);
    if ticker == [] then TickerPrompt(EnterTickerMessage)
    else
      var profile := FetchCompanyProfile(client.profile(ticker));
      var metrics := FetchDetailedMetrics(client.metrics(ticker));
      var recommendations := FetchRecommendations(client.recommendations(ticker));
      var ps := ProfileSection(profile);
      var ms := Follow(ps, MetricsSection(metrics));
      var rs := Follow(ms, RecommendationsSection(recommendations));
      var ins := Follow(rs, insightTab(rs));
      var offered := if Halted(ins) then None else Export(ticker, download, metrics);
      Rendered(Page(ticker, ps, ms, rs, ins, offered))
  }

  /**
   * The request cycle as app1.py runs it, unbound totals included. It renders
   * the same page as `Generate` except after a Recommendations tab that
   * showed an error: there the Insights tab raises and the download is not
   * reached.
   */
  function GenerateAsWritten(raw: string, download: bool, client: Client): (r: Response)
    ensures r.TickerPrompt? <==> AllSpace(raw)
    ensures var g := Generate(raw, download, client);
      if g.Rendered? && g.page.recommendations.ErrorShown?
      then r == Rendered(g.page.(insight := Raised, download := None))
      else r == g
  {
    Respond(raw, download, client, InsightSectionAsWritten)
  }

  /**
   * The request cycle with the insight totals defaulting to (0, 0, 0). A
   * blank ticker gets the prompt; otherwise every tab reflects the
   * provider's answer for the normalised ticker.
   */
  function Generate(raw: string, download: bool, client: Client): (r: Response)
    ensures r.TickerPrompt? <==> AllSpace(raw)
    ensures r.TickerPrompt? ==> r.message == EnterTickerMessage
    ensures r.Rendered? ==> r.page.ticker == NormalizeTicker(raw) && r.page.ticker != []
    ensures r.Rendered? ==>
      r.page.profile == ProfileSection(FetchCompanyProfile(client.profile(r.page.ticker)))
    ensures r.Rendered? && !r.page.profile.Raised? ==>
      r.page.metrics == MetricsSection(FetchDetailedMetrics(client.metrics(r.page.ticker)))
    ensures r.Rendered? && !Halted(r.page.metrics) ==>
      r.page.recommendations == RecommendationsSection(FetchRecommendations(client.recommendations(r.page.ticker)))
    ensures r.Rendered? && r.page.profile.Raised? ==> r.page.metrics.NotReached?
    ensures r.Rendered? && Halted(r.page.metrics) ==> r.page.recommendations.NotReached?
    ensures r.Rendered? && r.page.recommendations.Shown? ==>
      r.page.insight == Shown(Insight(r.page.recommendations.content))
    ensures r.Rendered? && r.page.recommendations.ErrorShown? ==> r.page.insight == Shown(NoClearRecommendation)
    ensures r.Rendered? && !Halted(r.page.recommendations) ==>
      r.page.download == Export(r.page.ticker, download, FetchDetailedMetrics(client.metrics(r.page.ticker)))
    ensures r.Rendered? && Halted(r.page.recommendations) ==> r.page.insight.NotReached? && r.page.download == None
  {
    Respond(raw, download, client, InsightSection)
  }

  /** A blank ticker is refused before any fetch: the provider's answers do not matter. */
  lemma BlankTickerFetchesNothing(raw: string, download: bool, c1: Client, c2: Client)
    requires AllSpace(raw)
    ensures Generate(raw, download, c1) == Generate(raw, download, c2) == TickerPrompt(EnterTickerMessage)
  {
  }

  /** Only the provider's answers for the normalised ticker matter. */
  lemma OnlyTheNormalizedTickerIsFetched(raw: string, download: bool, c1: Client, c2: Client)
    requires c1.profile(NormalizeTicker(raw)) == c2.profile(NormalizeTicker(raw))
    requires c1.metrics(NormalizeTicker(raw)) == c2.metrics(NormalizeTicker(raw))
    requires c1.recommendations(NormalizeTicker(raw)) == c2.recommendations(NormalizeTicker(raw))
    ensures Generate(raw, download, c1) == Generate(raw, download, c2)
  {
  }

  /**
   * A Recommendations tab that shows an error (a failed call, or no records)
   * leaves the other tabs and the download as they would be anyway, and the
   * Insights tab shows "No clear recommendation".
   */
  lemma RecommendationsFailureIsIsolated(raw: string, download: bool, profile: Outcome, metrics: Outcome,
                                         recommendations: Outcome)
    requires !AllSpace(raw)
    requires !ProfileSection(FetchCompanyProfile(profile)).Raised?
    requires !MetricsSection(FetchDetailedMetrics(metrics)).Raised?
    requires IsErrorMarker(FetchRecommendations(recommendations))
    ensures var page := Generate(raw, download, Client(_ => profile, _ => metrics, _ => recommendations)).page;
      page.profile == ProfileSection(FetchCompanyProfile(profile))
      && page.metrics == MetricsSection(FetchDetailedMetrics(metrics))
      && page.recommendations == RecommendationsSection(FetchRecommendations(recommendations))
      && page.insight == Shown(NoClearRecommendation)
      && page.download == Export(NormalizeTicker(raw), download, FetchDetailedMetrics(metrics))
  {
  }

  /**
   * As written, the same Recommendations error makes the Insights tab raise
   * NameError and the download is never offered, even with the option set
   * and metrics available.
   */
  lemma UnboundTotalsHaltPage(raw: string, download: bool, profile: Outcome, metrics: Outcome,
                              recommendations: Outcome)
    requires !AllSpace(raw)
    requires !ProfileSection(FetchCompanyProfile(profile)).Raised?
    requires !MetricsSection(FetchDetailedMetrics(metrics)).Raised?
    requires IsErrorMarker(FetchRecommendations(recommendations))
    ensures var page := GenerateAsWritten(raw, download, Client(_ => profile, _ => metrics, _ => recommendations)).page;
      page.recommendations == RecommendationsSection(FetchRecommendations(recommendations))
      && page.insight.Raised?
      && page.download == None
  {
  }

  /** A failed call and an empty trend both make the Recommendations tab show an error. */
  lemma RecommendationsErrorCases(message: string)
    ensures RecommendationsSection(FetchRecommendations(Failed(message))) == ErrorShown(JStr(message))
    ensures RecommendationsSection(FetchRecommendations(Returned(JArr([]))))
         == ErrorShown(JStr(NoRecommendationsMessage))
  {
  }
}
