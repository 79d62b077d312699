/** The detail view of one title (components/Modal.tsx): an analysis tab fed
    by the AI client, an episodes tab fed by the episode client with server
    driven paging, a mirror panel for the selected episode and a player
    overlay. The view's `useState` fields are the fields of class `Modal`;
    the pure functions `On...` say what each handler does to them, and the
    lemmas state what the handlers promise together.

    Every call to a service is split in two: the handler that starts it
    returns the `Request` it issues, and a completion handler later stores
    the result. A completion writes unconditionally: nothing checks that the
    request still belongs to the title on screen. */
module Detail {
  import opened Wrappers
  import opened JsValue
  import opened Types
  import ApiService

  datatype Tab = AnalysisTab | EpisodesTab

  /** A call the view hands to a service. */
  datatype Request =
    | Analyze(title: string)                                     // analyzeAnime(anime.title)
    | FetchEpisodes(session: string, page: int)                  // getEpisodes(anime.session, page)
    | FetchMirrors(animeSession: string, episodeSession: string) // getDownloadLinks(...)

  /** The `anime` prop and the ten state fields. `analysis` is whatever the
      AI client's JSON.parse produced; JNull stands for the initial `null`. */
  datatype DetailState = DetailState(
    anime: Option<AnimeSearchResult>,
    activeTab: Tab,
    analysis: Json,
    analysisLoading: bool,
    episodesData: Option<EpisodeResponse>,
    episodesLoading: bool,
    episodePage: int,
    selectedEp: Option<Episode>,
    downloadLinks: Option<DownloadResponse>,
    downloadLoading: bool,
    streamUrl: Option<string>)

  /** The state after a handler, and the requests it issued, in order. */
  datatype Transition = Transition(next: DetailState, issued: seq<Request>)

  /** The state the view is mounted with. */
  function Initial(anime: Option<AnimeSearchResult>): DetailState
  {
    DetailState(anime, AnalysisTab, JNull, false, None, false, 1, None, None, false, None)
  }

  /** The page number never drops below 1. */
  predicate PageInvariant(s: DetailState)
  {
    s.episodePage >= 1
  }

  /** The page lies within the page count of the loaded episode page. */
  predicate PageInRange(s: DetailState)
  {
    s.episodesData.Some? && 1 <= s.episodePage <= s.episodesData.value.totalPages
  }

  // ----- Selecting and closing a title -----

  /** The `anime` prop becomes `a`. The reset effect clears the view and
      starts the analysis; in the same commit the episodes effect sees the
      tab and page of the render before the reset, so a view left on the
      episodes tab also fetches the old page number for the new title. */
  function OnSelectTitle(s: DetailState, a: AnimeSearchResult): (t: Transition)
    ensures s.anime == Some(a) ==> t == Transition(s, [])
    ensures s.anime != Some(a) ==>
      && t.next.anime == Some(a)
      && t.next.activeTab == AnalysisTab
      && t.next.episodePage == 1
      && t.next.analysisLoading
      && t.next.analysis == JNull
      && t.next.episodesData.None?
      && t.next.selectedEp.None?
      && t.next.downloadLinks.None?
      && t.next.streamUrl.None?
      && t.next.downloadLoading == s.downloadLoading
      && t.next.episodesLoading == (s.episodesLoading || s.activeTab == EpisodesTab)
      && t.issued == [Analyze(a.title)] +
                     (if s.activeTab == EpisodesTab then [FetchEpisodes(a.session, s.episodePage)] else [])
  {
    if s.anime == Some(a) then Transition(s, [])
    else
      var reset := s.(anime := Some(a), activeTab := AnalysisTab, analysisLoading := true,
                      analysis := JNull, episodesData := None, episodePage := 1,
                      selectedEp := None, downloadLinks := None, streamUrl := None);
      if s.activeTab == EpisodesTab then
        Transition(reset.(episodesLoading := true), [Analyze(a.title), FetchEpisodes(a.session, s.episodePage)])
      else
        Transition(reset, [Analyze(a.title)])
  }

  /** The `anime` prop becomes null: the view renders nothing, and neither
      effect touches the state, which stays as it was until the next title. */
  function OnCloseTitle(s: DetailState): (t: Transition)
    ensures t.next.anime.None? && t.issued == []
    ensures t.next.(anime := s.anime) == s
  {
    Transition(s.(anime := None), [])
  }

  // ----- The analysis -----

  /** The AI call settled: a resolved value is stored, a rejection is only
      logged, and the loading flag drops either way. */
  function OnAnalysisSettled(s: DetailState, outcome: Option<Json>): (t: Transition)
    ensures !t.next.analysisLoading && t.issued == []
    ensures t.next.analysis == if outcome.Some? then outcome.value else s.analysis
    ensures t.next.(analysis := s.analysis, analysisLoading := s.analysisLoading) == s
  {
    Transition(s.(analysis := if outcome.Some? then outcome.value else s.analysis,
                  analysisLoading := false), [])
  }

  datatype AnalysisPane = AnalysisSpinner | Synopsis(value: Json) | AnalysisUnavailable

  /** What the analysis tab shows. */
  function AnalysisView(s: DetailState): (v: AnalysisPane)
    ensures v == AnalysisSpinner <==> s.analysisLoading
    ensures v.Synopsis? <==> !s.analysisLoading && Truthy(s.analysis)
    ensures v.Synopsis? ==> v.value == s.analysis
  {
    if s.analysisLoading then AnalysisSpinner
    else if Truthy(s.analysis) then Synopsis(s.analysis)
    else AnalysisUnavailable
  }

  /** An empty AI response is parsed as `{}`, which is truthy: the tab shows
      the (empty) synopsis, not "Analysis unavailable". Only a rejection
      after a reset, or a falsy parse result, leaves it unavailable. */
  lemma EmptyAnalysisIsShown(s: DetailState)
    ensures AnalysisView(OnAnalysisSettled(s, Some(JObject(map[]))).next) == Synopsis(JObject(map[]))
    ensures s.analysis == JNull ==> AnalysisView(OnAnalysisSettled(s, None).next) == AnalysisUnavailable
  {
  }

  // ----- Tabs and the episode fetch -----

  /** A tab button. The buttons exist only while a title is shown, and
      choosing the tab already active changes nothing. Switching to the
      episodes tab always fetches the current page, loaded or not. */
  function OnTabClick(s: DetailState, tab: Tab): (t: Transition)
    ensures s.anime.None? || tab == s.activeTab ==> t == Transition(s, [])
    ensures s.anime.Some? && tab != s.activeTab ==>
      && t.next.activeTab == tab
      && t.next.episodesLoading == (s.episodesLoading || tab == EpisodesTab)
      && t.next.(activeTab := s.activeTab, episodesLoading := s.episodesLoading) == s
      && t.issued == if tab == EpisodesTab then [FetchEpisodes(s.anime.value.session, s.episodePage)] else []
  {
    if s.anime.None? || tab == s.activeTab then Transition(s, [])
    else if tab == EpisodesTab then
      Transition(s.(activeTab := tab, episodesLoading := true), [FetchEpisodes(s.anime.value.session, s.episodePage)])
    else
      Transition(s.(activeTab := tab), [])
  }

  /** `fetchEpisodes` completed: the result, null included, replaces the page. */
  function OnEpisodesLoaded(s: DetailState, data: Option<EpisodeResponse>): (t: Transition)
    ensures t.next.episodesData == data && !t.next.episodesLoading && t.issued == []
    ensures t.next.(episodesData := s.episodesData, episodesLoading := s.episodesLoading) == s
  {
    Transition(s.(episodesData := data, episodesLoading := false), [])
  }

  datatype EpisodeList = EpisodeSpinner | EpisodeGrid(episodes: seq<Episode>) | NoEpisodesFound

  /** The episode list of the episodes tab: a spinner while a page loads,
      the loaded page's cards when it has any, "No episodes found." for an
      empty page and for a failed fetch alike. */
  function EpisodeListView(s: DetailState): (v: EpisodeList)
    ensures v == EpisodeSpinner <==> s.episodesLoading
    ensures v.EpisodeGrid? <==> !s.episodesLoading && s.episodesData.Some? && s.episodesData.value.episodes != []
    ensures v.EpisodeGrid? ==> v.episodes == s.episodesData.value.episodes
  {
    if s.episodesLoading then EpisodeSpinner
    else if s.episodesData.Some? && |s.episodesData.value.episodes| > 0 then EpisodeGrid(s.episodesData.value.episodes)
    else NoEpisodesFound
  }

  /** A completed fetch is what the list shows: its episodes when it has
      any, and "No episodes found." for a page without episodes or for null. */
  lemma LoadedPageShown(s: DetailState, data: Option<EpisodeResponse>)
    ensures data.Some? && data.value.episodes != [] ==>
              EpisodeListView(OnEpisodesLoaded(s, data).next) == EpisodeGrid(data.value.episodes)
    ensures data.None? || data.value.episodes == [] ==>
              EpisodeListView(OnEpisodesLoaded(s, data).next) == NoEpisodesFound
  {
  }

  /** An episode card can be clicked only when it is drawn: on the episodes
      tab of a shown title, as one of the loaded page's cards. */
  predicate CardShown(s: DetailState, ep: Episode)
  {
    s.anime.Some? && s.activeTab == EpisodesTab &&
    match EpisodeListView(s)
    case EpisodeGrid(episodes) => ep in episodes
    case _ => false
  }

  // ----- Paging -----

  /** The pager is drawn on the episodes tab when the loaded page reports
      more than one page. */
  predicate PagerShown(s: DetailState)
  {
    s.anime.Some? && s.activeTab == EpisodesTab && s.episodesData.Some? && s.episodesData.value.totalPages > 1
  }

  predicate PrevEnabled(s: DetailState)
  {
    PagerShown(s) && s.episodePage != 1 && !s.episodesLoading
  }

  predicate NextEnabled(s: DetailState)
  {
    PagerShown(s) && s.episodePage != s.episodesData.value.totalPages && !s.episodesLoading
  }

  /** The previous-page button: when enabled it steps back one page, and the
      episodes effect fetches that page. */
  function OnPrevClick(s: DetailState): (t: Transition)
    ensures !PrevEnabled(s) ==> t == Transition(s, [])
    ensures PrevEnabled(s) ==>
      && t.next.episodePage == s.episodePage - 1
      && t.next.episodesLoading
      && t.next.(episodePage := s.episodePage, episodesLoading := s.episodesLoading) == s
      && t.issued == [FetchEpisodes(s.anime.value.session, s.episodePage - 1)]
    ensures PageInvariant(s) ==> PageInvariant(t.next)
    ensures PageInRange(s) ==> PageInRange(t.next)
  {
    if PrevEnabled(s) then
      Transition(s.(episodePage := s.episodePage - 1, episodesLoading := true),
                 [FetchEpisodes(s.anime.value.session, s.episodePage - 1)])
    else Transition(s, [])
  }

  /** The next-page button, symmetric to `OnPrevClick`. */
  function OnNextClick(s: DetailState): (t: Transition)
    ensures !NextEnabled(s) ==> t == Transition(s, [])
    ensures NextEnabled(s) ==>
      && t.next.episodePage == s.episodePage + 1
      && t.next.episodesLoading
      && t.next.(episodePage := s.episodePage, episodesLoading := s.episodesLoading) == s
      && t.issued == [FetchEpisodes(s.anime.value.session, s.episodePage + 1)]
    ensures PageInvariant(s) ==> PageInvariant(t.next)
    ensures PageInRange(s) ==> PageInRange(t.next)
  {
    if NextEnabled(s) then
      Transition(s.(episodePage := s.episodePage + 1, episodesLoading := true),
                 [FetchEpisodes(s.anime.value.session, s.episodePage + 1)])
    else Transition(s, [])
  }

  // ----- Episodes and mirrors -----

  /** `handleEpisodeClick`: clicking the episode whose session token equals
      the selected one's closes the panel without a request; any other
      episode is selected, the old mirror list is discarded and exactly one
      mirror request is issued. */
  function OnEpisodeClick(s: DetailState, ep: Episode): (t: Transition)
    ensures !CardShown(s, ep) ==> t == Transition(s, [])
    ensures CardShown(s, ep) && s.selectedEp.Some? && s.selectedEp.value.session == ep.session ==>
      t == Transition(s.(selectedEp := None), [])
    ensures CardShown(s, ep) && !(s.selectedEp.Some? && s.selectedEp.value.session == ep.session) ==>
      && t.next.selectedEp == Some(ep)
      && t.next.downloadLinks.None?
      && t.next.downloadLoading
      && t.next.(selectedEp := s.selectedEp, downloadLinks := s.downloadLinks, downloadLoading := s.downloadLoading) == s
      && t.issued == [FetchMirrors(s.anime.value.session, ep.session)]
  {
    if !CardShown(s, ep) then Transition(s, [])
    else if s.selectedEp.Some? && s.selectedEp.value.session == ep.session then
      Transition(s.(selectedEp := None), [])
    else
      Transition(s.(selectedEp := Some(ep), downloadLoading := true, downloadLinks := None),
                 [FetchMirrors(s.anime.value.session, ep.session)])
  }

  /** The close button of the mirror panel, drawn on the episodes tab while
      an episode is selected. */
  function OnDeselectEpisode(s: DetailState): (t: Transition)
    ensures MirrorView(s) == NoPanel ==> t == Transition(s, [])
    ensures t.next.(selectedEp := s.selectedEp) == s && t.issued == []
    ensures MirrorView(s) != NoPanel ==> t.next.selectedEp.None?
  {
    if MirrorView(s) == NoPanel then Transition(s, [])
    else Transition(s.(selectedEp := None), [])
  }

  /** The mirror request completed: the result, null included, is stored. */
  function OnMirrorsLoaded(s: DetailState, links: Option<DownloadResponse>): (t: Transition)
    ensures t.next.downloadLinks == links && !t.next.downloadLoading && t.issued == []
    ensures t.next.(downloadLinks := s.downloadLinks, downloadLoading := s.downloadLoading) == s
  {
    Transition(s.(downloadLinks := links, downloadLoading := false), [])
  }

  /** A card is highlighted when its display label equals the selected
      episode's; the toggle in `OnEpisodeClick` compares session tokens. */
  predicate Highlighted(s: DetailState, ep: Episode)
  {
    s.selectedEp.Some? && s.selectedEp.value.episode == ep.episode
  }

  function Min(a: int, b: int): int
  {
    if a <= b then a else b
  }

  /** The "subtitled" group: the first three mirrors. */
  function SubLinks(links: Option<DownloadResponse>): (sub: DownloadResponse)
    ensures links.None? ==> sub == []
    ensures links.Some? ==> |sub| == Min(3, |links.value|)
    ensures forall i :: 0 <= i < |sub| ==> sub[i] == links.value[i]
  {
    if links.None? then [] else links.value[..Min(3, |links.value|)]
  }

  /** The "dubbed" group: mirrors 3 to 5, by position only. */
  function DubLinks(links: Option<DownloadResponse>): (dub: DownloadResponse)
    ensures links.None? ==> dub == []
    ensures links.Some? ==> |dub| == if |links.value| <= 3 then 0 else Min(6, |links.value|) - 3
    ensures forall i :: 0 <= i < |dub| ==> dub[i] == links.value[i + 3]
  {
    if links.None? then []
    else
      var n := |links.value|;
      if n <= 3 then [] else links.value[3..Min(6, n)]
  }

  /** The two groups hold at most three mirrors each, and together they are
      the first min(6, n) mirrors in order; a seventh mirror is never shown. */
  lemma {:induction false} GroupsSplitPrefix(links: DownloadResponse)
    ensures |SubLinks(Some(links))| <= 3 && |DubLinks(Some(links))| <= 3
    ensures SubLinks(Some(links)) + DubLinks(Some(links)) == links[..Min(6, |links|)]
    ensures SubLinks(Some(links)) == [] && DubLinks(Some(links)) == [] <==> links == []
  {
    var sub, dub := SubLinks(Some(links)), DubLinks(Some(links));
    var whole := links[..Min(6, |links|)];
    assert |sub + dub| == |whole|;
    forall i | 0 <= i < |whole| ensures (sub + dub)[i] == whole[i] {
      if i >= |sub| {
        assert (sub + dub)[i] == dub[i - |sub|] == links[i];
      }
    }
  }

  datatype MirrorPanel =
    | NoPanel
    | FetchingMirrors
    | MirrorGroups(sub: DownloadResponse, dub: DownloadResponse)
    | NoMirrorsFound
    | ConnectionFailed

  /** The mirror panel of the episodes tab. */
  function MirrorView(s: DetailState): (v: MirrorPanel)
    ensures v == NoPanel <==> s.anime.None? || s.activeTab != EpisodesTab || s.selectedEp.None?
    ensures v == FetchingMirrors <==> v != NoPanel && s.downloadLoading
    ensures v.MirrorGroups? ==> v.sub == SubLinks(s.downloadLinks) && v.dub == DubLinks(s.downloadLinks)
  {
    if s.anime.None? || s.activeTab != EpisodesTab || s.selectedEp.None? then NoPanel
    else if s.downloadLoading then FetchingMirrors
    else if s.downloadLinks.Some? then
      var sub, dub := SubLinks(s.downloadLinks), DubLinks(s.downloadLinks);
      if |sub| == 0 && |dub| == 0 then NoMirrorsFound else MirrorGroups(sub, dub)
    else ConnectionFailed
  }

  /** While the panel is up and not loading: "No mirrors found." exactly when
      the service returned an empty list, "Connection failed." exactly when
      it returned null. */
  lemma MirrorMessages(s: DetailState)
    requires s.anime.Some? && s.activeTab == EpisodesTab && s.selectedEp.Some? && !s.downloadLoading
    ensures MirrorView(s) == NoMirrorsFound <==> s.downloadLinks == Some([])
    ensures MirrorView(s) == ConnectionFailed <==> s.downloadLinks.None?
  {
    if s.downloadLinks.Some? {
      GroupsSplitPrefix(s.downloadLinks.value);
    }
  }

  /** The mirrors the panel offers as buttons. */
  function OfferedMirrors(s: DetailState): (offered: DownloadResponse)
    ensures forall m :: m in offered ==> s.downloadLinks.Some? && m in s.downloadLinks.value[..Min(6, |s.downloadLinks.value|)]
    ensures MirrorView(s).MirrorGroups? ==> offered == SubLinks(s.downloadLinks) + DubLinks(s.downloadLinks)
    ensures !MirrorView(s).MirrorGroups? ==> offered == []
  {
    match MirrorView(s)
    case MirrorGroups(sub, dub) =>
      GroupsSplitPrefix(s.downloadLinks.value);
      sub + dub
    case _ => []
  }

  // ----- The player overlay -----

  /** A mirror button sets the stream URL to the mirror's link. */
  function OnMirrorClick(s: DetailState, item: DownloadItem): (t: Transition)
    ensures item !in OfferedMirrors(s) ==> t == Transition(s, [])
    ensures item in OfferedMirrors(s) ==> t == Transition(s.(streamUrl := Some(item.link)), [])
  {
    if item in OfferedMirrors(s) then Transition(s.(streamUrl := Some(item.link)), [])
    else Transition(s, [])
  }

  /** The overlay is drawn while the stream URL is a non-empty string. */
  predicate PlayerShown(s: DetailState)
  {
    s.anime.Some? && s.streamUrl.Some? && s.streamUrl.value != ""
  }

  /** Closing the player clears only the stream URL. */
  function OnPlayerClose(s: DetailState): (t: Transition)
    ensures !PlayerShown(s) ==> t == Transition(s, [])
    ensures PlayerShown(s) ==> t.next.streamUrl.None? && t.next.(streamUrl := s.streamUrl) == s
    ensures t.issued == []
  {
    if PlayerShown(s) then Transition(s.(streamUrl := None), []) else Transition(s, [])
  }

  /** Closing the player leaves the selected episode and the mirror panel
      exactly as they were. */
  lemma PlayerCloseKeepsPanel(s: DetailState)
    ensures OnPlayerClose(s).next.selectedEp == s.selectedEp
    ensures OnPlayerClose(s).next.downloadLinks == s.downloadLinks
    ensures MirrorView(OnPlayerClose(s).next) == MirrorView(s)
  {
  }

  /** Without the page invariant the previous-page button is enabled on
      page 0 and steps to page -1. */
  lemma PrevNeedsPageInvariant(s: DetailState)
    requires PagerShown(s) && !s.episodesLoading && s.episodePage == 0
    ensures PrevEnabled(s) && OnPrevClick(s).next.episodePage == -1
  {
  }

  // ----- Event sequences -----

  /** Every way the view's state can change. */
  datatype Event =
    | SelectTitle(a: AnimeSearchResult)
    | CloseTitle
    | AnalysisSettled(outcome: Option<Json>)
    | TabClick(tab: Tab)
    | EpisodesLoaded(data: Option<EpisodeResponse>)
    | PrevClick
    | NextClick
    | EpisodeClick(ep: Episode)
    | DeselectEpisode
    | MirrorsLoaded(links: Option<DownloadResponse>)
    | MirrorClick(item: DownloadItem)
    | PlayerClose

  function Step(s: DetailState, e: Event): (t: Transition)
    ensures PageInvariant(s) ==> PageInvariant(t.next)
  {
    match e
    case SelectTitle(a) => OnSelectTitle(s, a)
    case CloseTitle => OnCloseTitle(s)
    case AnalysisSettled(outcome) => OnAnalysisSettled(s, outcome)
    case TabClick(tab) => OnTabClick(s, tab)
    case EpisodesLoaded(data) => OnEpisodesLoaded(s, data)
    case PrevClick => OnPrevClick(s)
    case NextClick => OnNextClick(s)
    case EpisodeClick(ep) => OnEpisodeClick(s, ep)
    case DeselectEpisode => OnDeselectEpisode(s)
    case MirrorsLoaded(links) => OnMirrorsLoaded(s, links)
    case MirrorClick(item) => OnMirrorClick(s, item)
    case PlayerClose => OnPlayerClose(s)
  }

  /** Runs the events in order, collecting the requests they issue. Whatever
      the user does and however the responses interleave, the page number
      stays at least 1. */
  function Run(s: DetailState, events: seq<Event>): (t: Transition)
    ensures PageInvariant(s) ==> PageInvariant(t.next)
    decreases |events|
  {
    if events == [] then Transition(s, [])
    else
      var first := Step(s, events[0]);
      var rest := Run(first.next, events[1..]);
      Transition(rest.next, first.issued + rest.issued)
  }

  /** Clicking the same episode twice issues one mirror request and ends
      with no episode selected. */
  lemma SameEpisodeTwice(s: DetailState, ep: Episode)
    requires CardShown(s, ep)
    requires s.selectedEp.None? || s.selectedEp.value.session != ep.session
    ensures Run(s, [EpisodeClick(ep), EpisodeClick(ep)]).issued == [FetchMirrors(s.anime.value.session, ep.session)]
    ensures Run(s, [EpisodeClick(ep), EpisodeClick(ep)]).next.selectedEp.None?
  {
    var t1 := Step(s, EpisodeClick(ep));
    var t2 := Step(t1.next, EpisodeClick(ep));
    assert [EpisodeClick(ep), EpisodeClick(ep)][1..] == [EpisodeClick(ep)];
    assert Run(t1.next, [EpisodeClick(ep)]) == Transition(t2.next, t2.issued + []);
  }

  /** Leaving the episodes tab and coming back fetches the current page
      again, even though that page is already loaded: there is no cache. */
  lemma TabRoundTripRefetches(s: DetailState)
    requires s.anime.Some? && s.activeTab == EpisodesTab
    ensures Run(s, [TabClick(AnalysisTab), TabClick(EpisodesTab)]).issued
            == [FetchEpisodes(s.anime.value.session, s.episodePage)]
    ensures Run(s, [TabClick(AnalysisTab), TabClick(EpisodesTab)]).next.episodesLoading
  {
    var t1 := Step(s, TabClick(AnalysisTab));
    var t2 := Step(t1.next, TabClick(EpisodesTab));
    assert [TabClick(AnalysisTab), TabClick(EpisodesTab)][1..] == [TabClick(EpisodesTab)];
    assert Run(t1.next, [TabClick(EpisodesTab)]) == Transition(t2.next, t2.issued + []);
  }

  /** A mirror response for an episode of an earlier title still lands in
      the view after the user closed it and opened another title: there is
      no staleness guard. */
  lemma LateMirrorsOverwrite(s: DetailState, ep: Episode, b: AnimeSearchResult, links: DownloadResponse)
    requires CardShown(s, ep) && s.anime != Some(b)
    requires s.selectedEp.None?
    ensures Run(s, [EpisodeClick(ep), CloseTitle, SelectTitle(b), MirrorsLoaded(Some(links))]).next.anime == Some(b)
    ensures Run(s, [EpisodeClick(ep), CloseTitle, SelectTitle(b), MirrorsLoaded(Some(links))]).next.downloadLinks == Some(links)
  {
    var es := [EpisodeClick(ep), CloseTitle, SelectTitle(b), MirrorsLoaded(Some(links))];
    var t1 := Step(s, es[0]);
    var t2 := Step(t1.next, es[1]);
    var t3 := Step(t2.next, es[2]);
    var t4 := Step(t3.next, es[3]);
    assert es[1..][1..][1..][1..] == [];
    assert Run(t3.next, es[1..][1..][1..]).next == t4.next;
    assert Run(t2.next, es[1..][1..]).next == t4.next;
    assert Run(t1.next, es[1..]).next == t4.next;
  }

  /** Running a non-empty sequence is its first step followed by the rest. */
  lemma RunFirst(s: DetailState, events: seq<Event>)
    requires events != []
    ensures Run(s, events).next == Run(Step(s, events[0]).next, events[1..]).next
  {
  }

  /** The harmful case: after the view is reopened on another title and an
      episode of that title is clicked, the earlier title's late mirror list
      is drawn in the panel of the new episode. */
  lemma StaleMirrorsShownUnderNewEpisode(s: DetailState, ep: Episode, b: AnimeSearchResult,
                                         page: EpisodeResponse, ep2: Episode, links: DownloadResponse)
    requires CardShown(s, ep) && s.anime != Some(b) && s.selectedEp.None?
    requires ep2 in page.episodes && links != []
    ensures var es := [EpisodeClick(ep), CloseTitle, SelectTitle(b), TabClick(EpisodesTab),
                       EpisodesLoaded(Some(page)), EpisodeClick(ep2), MirrorsLoaded(Some(links))];
            var r := Run(s, es).next;
            r.anime == Some(b) && r.selectedEp == Some(ep2) &&
            MirrorView(r) == MirrorGroups(SubLinks(Some(links)), DubLinks(Some(links)))
  {
    var es := [EpisodeClick(ep), CloseTitle, SelectTitle(b), TabClick(EpisodesTab),
               EpisodesLoaded(Some(page)), EpisodeClick(ep2), MirrorsLoaded(Some(links))];
    var s1 := Step(s, es[0]).next;
    var s2 := Step(s1, es[1]).next;
    var s3 := Step(s2, es[2]).next;
    var s4 := Step(s3, es[3]).next;
    var s5 := Step(s4, es[4]).next;
    assert CardShown(s5, ep2);
    var s6 := Step(s5, es[5]).next;
    var s7 := Step(s6, es[6]).next;
    RunFirst(s, es);
    RunFirst(s1, es[1..]);
    RunFirst(s2, es[2..]);
    RunFirst(s3, es[3..]);
    RunFirst(s4, es[4..]);
    RunFirst(s5, es[5..]);
    RunFirst(s6, es[6..]);
    assert es[1..][1..] == es[2..] && es[2..][1..] == es[3..] && es[3..][1..] == es[4..];
    assert es[4..][1..] == es[5..] && es[5..][1..] == es[6..] && es[6..][1..] == [];
    assert Run(s, es).next == s7;
    assert |SubLinks(Some(links))| > 0;
  }

  /** Two episodes with the same label but different session tokens: after
      selecting one, both cards are highlighted, yet clicking the other one
      selects it (and fetches its mirrors) instead of toggling off. */
  lemma ToggleAndHighlightDiffer(s: DetailState, e1: Episode, e2: Episode)
    requires CardShown(s, e2)
    requires e1.episode == e2.episode && e1.session != e2.session
    requires s.selectedEp == Some(e1)
    ensures Highlighted(s, e2)
    ensures OnEpisodeClick(s, e2).next.selectedEp == Some(e2)
    ensures |OnEpisodeClick(s, e2).issued| == 1
  {
  }

  // ----- The component -----

  /** The view's state fields. `anime` is the prop the parent passes. */
  class Modal {
    var anime: Option<AnimeSearchResult>
    var activeTab: Tab
    var analysis: Json
    var analysisLoading: bool
    var episodesData: Option<EpisodeResponse>
    var episodesLoading: bool
    var episodePage: int
    var selectedEp: Option<Episode>
    var downloadLinks: Option<DownloadResponse>
    var downloadLoading: bool
    var streamUrl: Option<string>

    function State(): DetailState
      reads this
    {
      DetailState(anime, activeTab, analysis, analysisLoading, episodesData, episodesLoading,
                  episodePage, selectedEp, downloadLinks, downloadLoading, streamUrl)
    }

    /** The page invariant: the page number is at least 1. `ClickPrev`
        needs it, since a page of 0 would step to -1
        (`PrevNeedsPageInvariant`); every method keeps it. */
    predicate Valid()
      reads this
    {
      PageInvariant(State())
    }

    /** Mounted with no title, as the parent does. */
    constructor ()
      ensures Valid() && State() == Initial(None)
    {
      anime := None;
      activeTab := AnalysisTab;
      analysis := JNull;
      analysisLoading := false;
      episodesData := None;
      episodesLoading := false;
      episodePage := 1;
      selectedEp := None;
      downloadLinks := None;
      downloadLoading := false;
      streamUrl := None;
    }

    method SelectTitle(a: AnimeSearchResult) returns (issued: seq<Request>)
      requires Valid()
      modifies this
      ensures Valid()
      ensures State() == OnSelectTitle(old(State()), a).next
      ensures issued == OnSelectTitle(old(State()), a).issued
    {
      if anime == Some(a) {
        return [];
      }
      // the episodes effect of the same commit reads the values of this render
      var renderedTab, renderedPage := activeTab, episodePage;
      anime := Some(a);
      activeTab := AnalysisTab;
      analysisLoading := true;
      analysis := JNull;
      episodesData := None;
      episodePage := 1;
      selectedEp := None;
      downloadLinks := None;
      streamUrl := None;
      issued := [Analyze(a.title)];
      if renderedTab == EpisodesTab {
        episodesLoading := true;
        issued := issued + [FetchEpisodes(a.session, renderedPage)];
      }
    }

    method CloseTitle()
      requires Valid()
      modifies this
      ensures Valid()
      ensures State() == OnCloseTitle(old(State())).next
    {
      anime := None;
    }

    /** The AI call settled with `outcome` (None: it rejected). */
    method CompleteAnalysis(outcome: Option<Json>)
      requires Valid()
      modifies this
      ensures Valid()
      ensures State() == OnAnalysisSettled(old(State()), outcome).next
    {
      if outcome.Some? {
        analysis := outcome.value;
      }
      analysisLoading := false;
    }

    method ClickTab(tab: Tab) returns (issued: seq<Request>)
      requires Valid()
      modifies this
      ensures Valid()
      ensures State() == OnTabClick(old(State()), tab).next
      ensures issued == OnTabClick(old(State()), tab).issued
    {
      issued := [];
      if anime.None? || tab == activeTab {
        return;
      }
      activeTab := tab;
      if tab == EpisodesTab {
        episodesLoading := true;
        issued := [FetchEpisodes(anime.value.session, episodePage)];
      }
    }

    /** `fetchEpisodes` resumes after `getEpisodes(session, page)`. */
    method CompleteEpisodes(session: string, page: int, fetch: string -> ApiService.Fetched<EpisodeResponse>)
      requires Valid()
      modifies this
      ensures Valid()
      ensures State() == OnEpisodesLoaded(old(State()), ApiService.GetEpisodes(session, page, fetch)).next
    {
      var data := ApiService.GetEpisodes(session, page, fetch);
      episodesData := data;
      episodesLoading := false;
    }

    method ClickPrev() returns (issued: seq<Request>)
      requires Valid()
      modifies this
      ensures Valid()
      ensures State() == OnPrevClick(old(State())).next
      ensures issued == OnPrevClick(old(State())).issued
    {
      issued := [];
      if PrevEnabled(State()) {
        episodePage := episodePage - 1;
        episodesLoading := true;
        issued := [FetchEpisodes(anime.value.session, episodePage)];
      }
    }

    method ClickNext() returns (issued: seq<Request>)
      requires Valid()
      modifies this
      ensures Valid()
      ensures State() == OnNextClick(old(State())).next
      ensures issued == OnNextClick(old(State())).issued
    {
      issued := [];
      if NextEnabled(State()) {
        episodePage := episodePage + 1;
        episodesLoading := true;
        issued := [FetchEpisodes(anime.value.session, episodePage)];
      }
    }

    method ClickEpisode(ep: Episode) returns (issued: seq<Request>)
      requires Valid()
      modifies this
      ensures Valid()
      ensures State() == OnEpisodeClick(old(State()), ep).next
      ensures issued == OnEpisodeClick(old(State()), ep).issued
    {
      issued := [];
      if !CardShown(State(), ep) {
        return;
      }
      if selectedEp.Some? && selectedEp.value.session == ep.session {
        selectedEp := None;
        return;
      }
      selectedEp := Some(ep);
      downloadLoading := true;
      downloadLinks := None;
      issued := [FetchMirrors(anime.value.session, ep.session)];
    }

    method DeselectEpisode()
      requires Valid()
      modifies this
      ensures Valid()
      ensures State() == OnDeselectEpisode(old(State())).next
    {
      if anime.Some? && activeTab == EpisodesTab && selectedEp.Some? {
        selectedEp := None;
      }
    }

    /** `handleEpisodeClick` resumes after `getDownloadLinks(animeSession, episodeSession)`. */
    method CompleteMirrors(animeSession: string, episodeSession: string, fetch: string -> ApiService.Fetched<DownloadResponse>)
      requires Valid()
      modifies this
      ensures Valid()
      ensures State() == OnMirrorsLoaded(old(State()), ApiService.GetDownloadLinks(animeSession, episodeSession, fetch)).next
    {
      var links := ApiService.GetDownloadLinks(animeSession, episodeSession, fetch);
      downloadLinks := links;
      downloadLoading := false;
    }

    method ChooseMirror(item: DownloadItem)
      requires Valid()
      modifies this
      ensures Valid()
      ensures State() == OnMirrorClick(old(State()), item).next
    {
      if item in OfferedMirrors(State()) {
        streamUrl := Some(item.link);
      }
    }

    method ClosePlayer()
      requires Valid()
      modifies this
      ensures Valid()
      ensures State() == OnPlayerClose(old(State())).next
    {
      if PlayerShown(State()) {
        streamUrl := None;
      }
    }
  }
}
