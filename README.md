# Anime discovery front-end: a verified model of its request workflow

The application is a browser front-end with a search box, a grid of results and a detail view for one title. The detail view loads an AI synopsis, a paginated episode list and, for a chosen episode, a list of playable mirrors shown in an embedded player. All real work happens in two remote services. This project models the logic the front-end itself owns:

- **`ApiService`** (`api_service.dfy`, for `services/apiService.ts`) covers the three HTTP clients. Their URLs are built from the query or the session tokens. The search client normalises a parsed JSON body of three accepted shapes into a result list. No client ever lets an error escape: failures become the empty list or null. The network is an oracle, a function from a URL to what `fetch` and `response.json()` produced.
- **`Detail`** (`modal.dfy`, for `components/Modal.tsx`) covers the detail view. Its state fields are the fields of class `Detail.Modal`, and each handler is one method. The pure functions `Detail.On...` state what each handler does to the whole state and which requests it issues. Every service call is split in two: the method that starts it returns the `Request` it issues, and a completion method later stores the result. Completions write unconditionally, because the view has no staleness guard.
- **`Search`** (`app.dfy`, for `App.tsx`) covers the search page. The submit handler is split at its one awaited call. The model also covers how the results area is chosen, and the selected title handed to the detail view.
- `JsValue` (`json.dfy`) holds the JSON value type with JavaScript truthiness and property reads. `Types` (`types.dfy`) holds the records of `types.ts`. `Wrappers` (`wrappers.dfy`) holds `Option`.

Four behaviours of the code are easy to misread:

- Closing the detail view does not reset its state. The reset happens when the next title is selected (`components/Modal.tsx:31-47`).
- Switching to the episodes tab always fetches the current page, even when it is already loaded (`components/Modal.tsx:49-53`).
- An empty AI response is parsed as `{}`. That value is truthy, so the view shows an empty synopsis rather than "Analysis unavailable." (`services/geminiService.ts:25-26`, `components/Modal.tsx:163`).
- "Connection error." can never be shown, because `searchAnime` never rejects.

Reopening the view after it was left on the episodes tab has one more effect. The episodes effect runs in the same commit as the reset, and it still sees the old tab and page. So it also fetches the OLD page number for the NEW title (`Detail.OnSelectTitle`).

## Model

| member | source | states |
|---|---|---|
| ApiService.SearchUrl | services/apiService.ts:8 | the search URL is the fixed search endpoint followed by exactly the encoded query |
| ApiService.SeriesUrl | services/apiService.ts:25 | the series URL is the fixed endpoint and the raw session token, followed by `&page=` and the printed page number |
| ApiService.EpisodeUrl | services/apiService.ts:37 | the episode URL is the fixed endpoint, the raw series token and `&ep=`, followed by exactly the raw episode token |
| ApiService.SearchUrlInjective | services/apiService.ts:8 | two queries give the same search URL only when the encoder maps them to the same string |
| ApiService.SeriesUrlInjective | services/apiService.ts:25 | the series URL determines both the session token and the page: the page number is printed last and holds no `&` |
| ApiService.EpisodeUrlAmbiguous | services/apiService.ts:37 | the session tokens are interpolated without encoding, so two different (series, episode) pairs can request the same URL |
| ApiService.NormalizeBody | services/apiService.ts:10-16 | an object's array-valued `data` wins; otherwise a bare array is returned as is; otherwise an object's truthy `results` is returned, else the empty list; a primitive body gives the empty list; only a `null` body throws; any returned value is truthy |
| ApiService.SearchAnime | services/apiService.ts:6-21 | a network error, a non-ok status, an unreadable body or a throw gives the empty list; otherwise the normalised body; the result is always truthy (the client never rejects) |
| ApiService.ShapesAgree | services/apiService.ts:12-16 | a bare list, `{data: list}` and `{results: list}` all normalise to that same list |
| ApiService.GetEpisodes | services/apiService.ts:23-33 | the body of the series URL's response unchanged on an ok status with a readable body, null otherwise |
| ApiService.GetDownloadLinks | services/apiService.ts:35-45 | the body of the episode URL's response unchanged on an ok status with a readable body, null otherwise |
| Detail.OnSelectTitle | components/Modal.tsx:31-53 | selecting a new title sets the analysis tab, page 1 and analysis loading; clears analysis, episodes, selected episode, mirrors and stream; leaves the mirror loading flag alone; issues one analysis request; when the previous render was on the episodes tab it also fetches the previous page for the new title and raises the episode loading flag |
| Detail.OnCloseTitle | components/Modal.tsx:31-53 | dropping the title changes nothing else: neither effect resets state while no title is shown |
| Detail.OnAnalysisSettled | components/Modal.tsx:42-45 | a resolved analysis is stored, a rejection keeps the old value, and the loading flag drops either way; nothing else changes |
| Detail.AnalysisView | components/Modal.tsx:152-191 | the analysis tab shows the spinner exactly while loading, the synopsis exactly when not loading and the stored analysis is truthy, and "Analysis unavailable." otherwise |
| Detail.EmptyAnalysisIsShown | components/Modal.tsx:152-191 | an empty AI result `{}` shows the synopsis pane, not "Analysis unavailable."; a rejection after a reset shows "Analysis unavailable." |
| Detail.OnTabClick | components/Modal.tsx:49-58 | choosing the other tab switches to it; switching to episodes always issues one fetch of the current page and raises the loading flag, loaded or not; choosing the active tab, or a click with no title shown, changes nothing |
| Detail.OnEpisodesLoaded | components/Modal.tsx:55-61 | the fetched page, null included, replaces the episode data and the loading flag drops; nothing else changes |
| Detail.EpisodeListView | components/Modal.tsx:275-307 | the list shows the spinner exactly while a page loads, and the loaded page's cards exactly when nothing loads and the page has episodes; otherwise "No episodes found." |
| Detail.LoadedPageShown | components/Modal.tsx:55-61 | a completed fetch is what the list shows: its episodes when it has any, "No episodes found." for an empty page or null |
| Detail.OnPrevClick | components/Modal.tsx:253-261 | enabled only with the pager shown, a page other than 1 and no fetch in flight; then it steps back one page and issues one fetch of that page; it keeps the page at least 1 and keeps 1 <= page <= total pages |
| Detail.OnNextClick | components/Modal.tsx:262-269 | enabled only with the pager shown, a page other than the total and no fetch in flight; then it steps forward one page and issues one fetch of that page; it keeps the page at least 1 and keeps 1 <= page <= total pages |
| Detail.OnEpisodeClick | components/Modal.tsx:63-81 | an episode with the selected episode's session token deselects it with no request and no other change; any other episode is selected, the old mirror list is discarded, the loading flag raised and exactly one mirror request issued for the title's and the episode's tokens; nothing happens unless the episode is one of the cards drawn on the episodes tab |
| Detail.OnDeselectEpisode | components/Modal.tsx:204 | the panel's close button, drawn only on the episodes tab with an episode selected, clears only the selected episode; otherwise nothing changes |
| Detail.OnMirrorsLoaded | components/Modal.tsx:74-80 | the mirror result, null included, is stored and the loading flag drops; nothing else changes |
| Detail.SubLinks | components/Modal.tsx:86 | the subtitled group is the first min(3, n) mirrors, in order; no list gives no group |
| Detail.DubLinks | components/Modal.tsx:87 | the dubbed group is mirrors 3 up to min(6, n), in order; no list gives no group |
| Detail.GroupsSplitPrefix | components/Modal.tsx:85-87 | each group holds at most three mirrors, the two groups together are the first min(6, n) mirrors in order, and both are empty exactly when the list is empty |
| Detail.MirrorView | components/Modal.tsx:197-247 | the mirror panel is drawn exactly on the episodes tab of a shown title with an episode selected; it shows the spinner exactly while the mirrors load; its groups are `SubLinks` and `DubLinks` of the stored list |
| Detail.MirrorMessages | components/Modal.tsx:209-246 | once loading is over, "No mirrors found." shows exactly when the list is empty, and "Connection failed." shows exactly when the result is null |
| Detail.OfferedMirrors | components/Modal.tsx:216-239 | while the groups are drawn, the buttons offered are exactly the subtitled group followed by the dubbed group, all among the first six mirrors of the current list; otherwise no button is offered |
| Detail.OnMirrorClick | components/Modal.tsx:370 | choosing an offered mirror sets the stream URL to its link and changes nothing else |
| Detail.OnPlayerClose | components/Modal.tsx:335-337 | closing the player clears only the stream URL |
| Detail.PlayerCloseKeepsPanel | components/Modal.tsx:336 | closing the player leaves the selected episode, the mirror list and the whole mirror panel as they were |
| Detail.PrevNeedsPageInvariant | components/Modal.tsx:253-257 | with the page at 0 the previous-page button would be enabled and step to -1, so the page invariant is what keeps the page positive |
| Detail.Step | components/Modal.tsx:31-81 | no handler or completion lowers the page below 1 |
| Detail.Run | components/Modal.tsx:253-269 | over any sequence of clicks and completions, in any order, the page stays at least 1 |
| Detail.SameEpisodeTwice | components/Modal.tsx:63-80 | clicking one episode twice issues exactly one mirror request and ends with no episode selected |
| Detail.TabRoundTripRefetches | components/Modal.tsx:49-53 | leaving the episodes tab and returning fetches the current page again: pages are not cached |
| Detail.LateMirrorsOverwrite | components/Modal.tsx:70-80 | a mirror response for an episode of an earlier title overwrites the mirror list of the newly opened title |
| Detail.StaleMirrorsShownUnderNewEpisode | components/Modal.tsx:63-80 | when the earlier title's late mirror response arrives after an episode of the newly opened title was clicked, the panel of that new episode draws the stale mirrors |
| Detail.ToggleAndHighlightDiffer | components/Modal.tsx:285-297 | two episodes with one label and different tokens are both highlighted, yet clicking the unselected one selects it and fetches its mirrors |
| Detail.Modal.constructor | components/Modal.tsx:16-29 | the view is mounted with the analysis tab, page 1, and every other field null or false |
| Detail.Modal.SelectTitle | components/Modal.tsx:31-53 | the fields and the issued requests are those of `OnSelectTitle` |
| Detail.Modal.CloseTitle | components/Modal.tsx:31-53 | the fields are those of `OnCloseTitle` |
| Detail.Modal.CompleteAnalysis | components/Modal.tsx:42-45 | the fields are those of `OnAnalysisSettled` |
| Detail.Modal.ClickTab | components/Modal.tsx:136-143 | the fields and the issued requests are those of `OnTabClick` |
| Detail.Modal.CompleteEpisodes | components/Modal.tsx:55-61 | the fields are those of `OnEpisodesLoaded` applied to what `getEpisodes` returned |
| Detail.Modal.ClickPrev | components/Modal.tsx:255-257 | the fields and the issued requests are those of `OnPrevClick`; this method needs the page invariant `Valid` (page at least 1) to keep it |
| Detail.Modal.ClickNext | components/Modal.tsx:263-265 | the fields and the issued requests are those of `OnNextClick` |
| Detail.Modal.ClickEpisode | components/Modal.tsx:63-72 | the fields and the issued requests are those of `OnEpisodeClick` |
| Detail.Modal.DeselectEpisode | components/Modal.tsx:204 | the fields are those of `OnDeselectEpisode` |
| Detail.Modal.CompleteMirrors | components/Modal.tsx:73-80 | the fields are those of `OnMirrorsLoaded` applied to what `getDownloadLinks` returned |
| Detail.Modal.ChooseMirror | components/Modal.tsx:223 | the fields are those of `OnMirrorClick` |
| Detail.Modal.ClosePlayer | components/Modal.tsx:336 | the fields are those of `OnPlayerClose` |
| Search.Trim | App.tsx:19 | the trimmed query is no longer than the query and neither starts nor ends with JavaScript whitespace |
| Search.TrimEmptyIffBlank | App.tsx:19 | the trimmed query is empty exactly when every character is JavaScript whitespace |
| Search.OnSubmit | App.tsx:17-23 | a blank query, or a submit while a search is in flight, changes nothing and calls nothing; otherwise loading is set, the error cleared, the searched flag set, and the query sent |
| Search.OnResults | App.tsx:25-35 | the resolved value replaces the results, even when empty; an empty list sets "No results found."; a throw while reading its length would set "Connection error."; otherwise the error is kept; loading is false afterwards whatever happened |
| Search.ConnectionErrorUnreachable | App.tsx:31-32 | after a completed search the error is null or "No results found.", and the results area never shows "Connection error." |
| Search.ResultsView | App.tsx:97-119 | the banner shows exactly when the error is a non-empty string, and it hides the grid; with no error and a positive `results.length` the grid branch is taken, and it draws one card per element exactly when the results are a non-empty array; any other value with a positive length fails to render, because it has no `map` |
| Search.StringResultsFailToRender | App.tsx:102-110 | a body `{"results": "abc"}` is passed through by the service and makes a completed search fail to render |
| Search.SearchOutcomeShown | App.tsx:27-30 | a search answered with a list shows "No results found." when it is empty and the grid when it is not, never both |
| Search.OnCardClick | App.tsx:114 | a card click selects its title and changes nothing else |
| Search.OnModalClose | App.tsx:125 | closing the detail view clears the selected title and changes nothing else |
| Search.App.constructor | App.tsx:10-15 | the page starts with an empty query and result list, no error, not loading, nothing selected, not yet searched; the detail view mounted with it starts in its own initial state with no title |
| Search.App.TypeQuery | App.tsx:79 | typing replaces only the query |
| Search.App.SubmitStart | App.tsx:17-23 | the fields and the query sent are those of `OnSubmit` |
| Search.App.SubmitComplete | App.tsx:25-35 | the fields are those of `OnResults` applied to what `searchAnime` resolved to; the results stay truthy |
| Search.App.SelectAnime | App.tsx:114 | the selected title is set and the detail view receives it, as in `OnSelectTitle` |
| Search.App.CloseModal | App.tsx:125 | the selected title is cleared and the detail view drops it, as in `OnCloseTitle` |

## Left out

- HTTP and JSON parsing (`fetch`, `response.json()`) are I/O. Their outcome is the `ApiService.Fetched` oracle: a network error, or a status with a body that is readable or not.
- `encodeURIComponent` is a library function. It is a parameter (`encode`) of the search client.
- ApiService.SearchAnime: `encodeURIComponent` throws on a lone surrogate, and the client then returns the empty list without a request. A Dafny `char` cannot hold a lone surrogate, so this path is not representable.
- The AI client (`services/geminiService.ts`) is a call into a foreign SDK followed by `JSON.parse`. Its outcome is a parameter: the parsed value, or a rejection. The substitution of `{}` for an empty response is covered only through the value it produces (`Detail.EmptyAnalysisIsShown`).
- `ApiService.GetEpisodes`: the parsed body is taken to have the declared record shape, because the source only casts it. A body of any other shape is not modelled.
- `ApiService.GetDownloadLinks`: same as for `GetEpisodes`, the parsed body is taken to have the declared record shape.
- Search results are kept as JSON values. A clicked card hands over a typed record; how a JSON element becomes that record is not modelled.
- JSON numbers are reals, and the page number is an integer. NaN, infinities and `-0` are not representable.
- Types.EpisodeResponse: `total`, `page` and `total_pages` are integers. A fractional page count, which would never equal the page number and so leave the next-page button enabled for ever, is not modelled.
- Search.ResultsView: a `length` field that holds a string or an array is read as not positive. JavaScript's string-to-number coercion is not modelled.
- Async interleaving: any order of completions can be replayed with `Detail.Run`. Freshness of the shown data is not claimed, because it does not hold.
- React timing: the model applies a handler and the effects it triggers as one step. The frame painted before the effects run, and clicks landing in that frame, are not modelled.
- Detail.OnSelectTitle: the source asks whether the `anime` prop changed by object identity. The model compares record values.
- Logging through `console.error` is not modelled.
- Rendering is UI only: JSX, styles, icons, the iframe, the "open in new tab" link and the poster's `onError` fallback.
- `components/AnimeCard.tsx` is a stateless projection of one result. It is not part of this model.
- `vite.config.ts` is build configuration.
- `AnimeDetail` and `GeminiAnalysis` in `types.ts` are declarations that the modelled code never reads. The analysis is kept as the parsed JSON value.
