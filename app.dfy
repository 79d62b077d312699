/** The search page (App.tsx): the query box, the submit handler, the
    results area and the selected title that the detail view shows. */
module Search {
  import opened Wrappers
  import opened JsValue
  import opened Types
  import ApiService
  import Detail

  const NO_RESULTS: string := "No results found."
  const CONNECTION_ERROR: string := "Connection error."

  datatype SearchState = SearchState(
    query: string,
    results: Json,
    loading: bool,
    error: Option<string>,
    selectedAnime: Option<AnimeSearchResult>,
    hasSearched: bool)

  function Initial(): SearchState
  {
    SearchState("", JArray([]), false, None, None, false)
  }

  // ----- String.prototype.trim -----

  /** The characters `trim` removes: WhiteSpace and LineTerminator of
      ECMAScript (tab, vertical tab, form feed, space, no-break space, BOM,
      the Unicode space separators, LF, CR, LS and PS). */
  predicate IsJsWhitespace(c: char)
  {
    c == '\t' || c == '\n' || c == '\U{B}' || c == '\U{C}' || c == '\r' || c == ' '
    || c == '\U{A0}' || c == '\U{1680}' || ('\U{2000}' <= c <= '\U{200A}')
    || c == '\U{2028}' || c == '\U{2029}' || c == '\U{202F}' || c == '\U{205F}'
    || c == '\U{3000}' || c == '\U{FEFF}'
  }

  predicate Blank(q: string)
  {
    forall i :: 0 <= i < |q| ==> IsJsWhitespace(q[i])
  }

  /** Drops the leading whitespace. */
  function TrimStart(q: string): string
  {
    if q == [] || !IsJsWhitespace(q[0]) then q else TrimStart(q[1..])
  }

  /** Drops the trailing whitespace. */
  function TrimEnd(q: string): string
  {
    if q == [] || !IsJsWhitespace(q[|q| - 1]) then q else TrimEnd(q[..|q| - 1])
  }

  /** `String.prototype.trim`: what is left neither starts nor ends with
      whitespace, and nothing is added. */
  function Trim(q: string): (r: string)
    ensures |r| <= |q|
    ensures r != [] ==> !IsJsWhitespace(r[0]) && !IsJsWhitespace(r[|r| - 1])
  {
    TrimStartDropsBlankPrefix(q);
    TrimEndDropsBlankSuffix(TrimStart(q));
    TrimEnd(TrimStart(q))
  }

  /** `TrimStart` keeps a suffix, drops only whitespace, and stops at the
      first character that is not whitespace. */
  lemma {:induction false} TrimStartDropsBlankPrefix(q: string)
    ensures var r := TrimStart(q);
            |r| <= |q| && r == q[|q| - |r|..] && Blank(q[..|q| - |r|]) &&
            (r == [] || !IsJsWhitespace(r[0]))
  {
    if q != [] && IsJsWhitespace(q[0]) {
      TrimStartDropsBlankPrefix(q[1..]);
      var r := TrimStart(q[1..]);
      assert q[..|q| - |r|] == [q[0]] + q[1..][..|q| - 1 - |r|];
    }
  }

  /** `TrimEnd` keeps a prefix, drops only whitespace, and stops at the
      last character that is not whitespace. */
  lemma {:induction false} TrimEndDropsBlankSuffix(q: string)
    ensures var r := TrimEnd(q);
            |r| <= |q| && r == q[..|r|] && Blank(q[|r|..]) &&
            (r == [] || !IsJsWhitespace(r[|r| - 1]))
  {
    if q != [] && IsJsWhitespace(q[|q| - 1]) {
      TrimEndDropsBlankSuffix(q[..|q| - 1]);
      var r := TrimEnd(q[..|q| - 1]);
      assert q[|r|..] == q[..|q| - 1][|r|..] + [q[|q| - 1]];
    }
  }

  /** `query.trim()` is the empty (falsy) string exactly when the query is
      made only of whitespace. */
  lemma TrimEmptyIffBlank(q: string)
    ensures Trim(q) == "" <==> Blank(q)
  {
    var s := TrimStart(q);
    TrimStartDropsBlankPrefix(q);
    TrimEndDropsBlankSuffix(s);
    if !Blank(q) {
      var i :| 0 <= i < |q| && !IsJsWhitespace(q[i]);
      assert i >= |q| - |s|;
      assert s[0] == q[|q| - |s|];
      assert s[|TrimEnd(s)|..] != s;
    }
  }

  // ----- handleSearch -----

  /** The form is submitted. While a search is in flight the submit button
      is disabled, so nothing happens. A blank query returns before any
      state change or call. Otherwise the flags are set and the query is
      sent to `searchAnime`. */
  function OnSubmit(s: SearchState): (t: (SearchState, Option<string>))
    ensures s.loading || Blank(s.query) ==> t == (s, None)
    ensures !s.loading && !Blank(s.query) ==>
      && t.1 == Some(s.query)
      && t.0.loading && t.0.error.None? && t.0.hasSearched
      && t.0.(loading := s.loading, error := s.error, hasSearched := s.hasSearched) == s
  {
    TrimEmptyIffBlank(s.query);
    if s.loading || Trim(s.query) == "" then (s, None)
    else (s.(loading := true, error := None, hasSearched := true), Some(s.query))
  }

  /** `handleSearch` resumes with the value `searchAnime` resolved to: the
      value replaces the results, an empty list sets "No results found.",
      a throw while reading `data.length` would set "Connection error.", and
      the loading flag drops whatever happened. */
  function OnResults(s: SearchState, data: Json): (r: SearchState)
    ensures r.results == data && !r.loading
    ensures Prop(data, "length") == Value(JNum(0.0)) ==> r.error == Some(NO_RESULTS)
    ensures Prop(data, "length").Throws? ==> r.error == Some(CONNECTION_ERROR)
    ensures Prop(data, "length") != Value(JNum(0.0)) && !Prop(data, "length").Throws? ==> r.error == s.error
    ensures r.(results := s.results, loading := s.loading, error := s.error) == s
  {
    var stored := s.(results := data);
    var finished :=
      match Prop(data, "length")
      case Throws => stored.(error := Some(CONNECTION_ERROR))
      case Value(JNum(n)) => if n == 0.0 then stored.(error := Some(NO_RESULTS)) else stored
      case _ => stored;
    finished.(loading := false)
  }

  /** "Connection error." is never shown: `searchAnime` swallows every
      failure and always resolves to a truthy value, whose `length` can be
      read. A completed search leaves either no error or "No results found.". */
  lemma ConnectionErrorUnreachable(s: SearchState, encode: string -> string, fetch: string -> ApiService.Fetched<Json>)
    requires !s.loading && !Blank(s.query)
    ensures var r := OnResults(OnSubmit(s).0, ApiService.SearchAnime(s.query, encode, fetch));
            r.error == None || r.error == Some(NO_RESULTS)
    ensures var r := OnResults(OnSubmit(s).0, ApiService.SearchAnime(s.query, encode, fetch));
            ResultsView(r) != ErrorBanner(CONNECTION_ERROR)
  {
    var data := ApiService.SearchAnime(s.query, encode, fetch);
    assert Truthy(data);
  }

  // ----- The results area -----

  /** `x > 0` for the value of a `length` read: numbers compare directly,
      `true` is 1, `null` is 0, `undefined` and objects are NaN. */
  predicate LengthPositive(r: Read)
  {
    match r
    case Value(JNum(n)) => n > 0.0
    case Value(JBool(b)) => b
    case _ => false
  }

  datatype ResultsArea = ErrorBanner(message: string) | ResultGrid(cards: seq<Json>) | RenderFails | NoArea

  /** An error message hides the grid. With no error and a positive
      `results.length` the grid branch is taken, and it draws one card per
      element through `results.map`; a value that is not an array has no
      `map`, so that branch throws and the page fails to render. */
  function ResultsView(s: SearchState): (v: ResultsArea)
    ensures s.error.Some? && s.error.value != "" ==> v == ErrorBanner(s.error.value)
    ensures v.ErrorBanner? <==> s.error.Some? && s.error.value != ""
    ensures v.ResultGrid? || v.RenderFails? <==>
              (s.error.None? || s.error.value == "") && LengthPositive(Prop(s.results, "length"))
    ensures v.ResultGrid? <==> (s.error.None? || s.error.value == "") && s.results.JArray? && s.results.items != []
    ensures v.ResultGrid? ==> v.cards == s.results.items
  {
    if s.error.Some? && s.error.value != "" then ErrorBanner(s.error.value)
    else if LengthPositive(Prop(s.results, "length")) then
      if s.results.JArray? then ResultGrid(s.results.items) else RenderFails
    else NoArea
  }

  /** A search whose service returns a list shows the grid when the list is
      non-empty and "No results found." when it is empty, never both. */
  lemma SearchOutcomeShown(s: SearchState, items: seq<Json>)
    requires !s.loading && !Blank(s.query)
    ensures var v := ResultsView(OnResults(OnSubmit(s).0, JArray(items)));
            (items == [] ==> v == ErrorBanner(NO_RESULTS)) && (items != [] ==> v == ResultGrid(items))
  {
    var r := OnResults(OnSubmit(s).0, JArray(items));
    if items == [] {
      assert Prop(JArray(items), "length") == Value(JNum(0.0));
    } else {
      assert r.error.None?;
    }
  }

  /** The service hands a truthy non-array `results` field through, so a
      body `{"results": "abc"}` makes a completed search fail to render. */
  lemma StringResultsFailToRender(s: SearchState, encode: string -> string, fetch: string -> ApiService.Fetched<Json>)
    requires !s.loading && !Blank(s.query)
    requires fetch(ApiService.SearchUrl(s.query, encode)) ==
               ApiService.Response(200, Some(JObject(map["results" := JStr("abc")])))
    ensures ResultsView(OnResults(OnSubmit(s).0, ApiService.SearchAnime(s.query, encode, fetch))) == RenderFails
  {
    var body := JObject(map["results" := JStr("abc")]);
    assert ApiService.NormalizeBody(body) == Some(JStr("abc"));
    assert Prop(JStr("abc"), "length") == Value(JNum(3.0));
  }

  /** A card click selects its title; closing the detail view clears it. */
  function OnCardClick(s: SearchState, a: AnimeSearchResult): (r: SearchState)
    ensures r.selectedAnime == Some(a) && r.(selectedAnime := s.selectedAnime) == s
  {
    s.(selectedAnime := Some(a))
  }

  function OnModalClose(s: SearchState): (r: SearchState)
    ensures r.selectedAnime.None? && r.(selectedAnime := s.selectedAnime) == s
  {
    s.(selectedAnime := None)
  }

  // ----- The component -----

  /** The page's state fields and the detail view it renders with
      `anime={selectedAnime}`. */
  class App {
    var query: string
    var results: Json
    var loading: bool
    var error: Option<string>
    var selectedAnime: Option<AnimeSearchResult>
    var hasSearched: bool
    const modal: Detail.Modal

    function State(): SearchState
      reads this
    {
      SearchState(query, results, loading, error, selectedAnime, hasSearched)
    }

    /** The detail view always shows the selected title, and the results are
        always a truthy value. */
    predicate Valid()
      reads this, modal
    {
      modal.anime == selectedAnime && Truthy(results) && modal.Valid()
    }

    constructor ()
      ensures Valid() && State() == Initial() && fresh(modal)
      ensures modal.State() == Detail.Initial(None)
    {
      query := "";
      results := JArray([]);
      loading := false;
      error := None;
      selectedAnime := None;
      hasSearched := false;
      modal := new Detail.Modal();
    }

    /** The input's onChange. */
    method TypeQuery(q: string)
      requires Valid()
      modifies this
      ensures Valid() && State() == old(State()).(query := q)
    {
      query := q;
    }

    /** The first half of `handleSearch`: returns the query passed to
      `searchAnime`, or None when no call is made. */
    method SubmitStart() returns (sent: Option<string>)
      requires Valid()
      modifies this
      ensures Valid()
      ensures State() == OnSubmit(old(State())).0
      ensures sent == OnSubmit(old(State())).1
    {
      ghost var before := State();
      var trimmed := Trim(query);
      if loading || trimmed == "" {
        assert OnSubmit(before) == (before, None);
        return None;
      }
      loading := true;
      error := None;
      hasSearched := true;
      sent := Some(query);
      assert OnSubmit(before) == (State(), sent);
    }

    /** The second half of `handleSearch`, once `searchAnime(sent)` resolved. */
    method SubmitComplete(sent: string, encode: string -> string, fetch: string -> ApiService.Fetched<Json>)
      requires Valid()
      modifies this
      ensures Valid()
      ensures State() == OnResults(old(State()), ApiService.SearchAnime(sent, encode, fetch))
    {
      var data := ApiService.SearchAnime(sent, encode, fetch);
      results := data;
      var length := Prop(data, "length");
      if length.Throws? {
        // the catch branch: searchAnime never resolves to null
        assert false;
      } else if length == Value(JNum(0.0)) {
        error := Some(NO_RESULTS);
      }
      loading := false;
    }

    /** A card's onClick: the detail view receives the title. */
    method SelectAnime(a: AnimeSearchResult) returns (issued: seq<Detail.Request>)
      requires Valid()
      modifies this, modal
      ensures Valid()
      ensures State() == OnCardClick(old(State()), a)
      ensures modal.State() == Detail.OnSelectTitle(old(modal.State()), a).next
      ensures issued == Detail.OnSelectTitle(old(modal.State()), a).issued
    {
      selectedAnime := Some(a);
      issued := modal.SelectTitle(a);
    }

    /** The detail view's onClose. */
    method CloseModal()
      requires Valid()
      modifies this, modal
      ensures Valid()
      ensures State() == OnModalClose(old(State()))
      ensures modal.State() == Detail.OnCloseTitle(old(modal.State())).next
    {
      selectedAnime := None;
      modal.CloseTitle();
    }
  }
}
