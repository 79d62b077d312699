/** The three HTTP clients of services/apiService.ts. The network is an
    oracle: `fetch` maps a URL to what the call and `response.json()`
    produced. No client ever propagates an error. */
module ApiService {
  import opened Wrappers
  import opened JsValue
  import opened Types

  const BASE_URL: string := "https://anime.apex-cloud.workers.dev/"

  /** The outcome of `fetch(url)` followed, on an ok status, by `response.json()`. */
  datatype Fetched<T> =
    | NetworkError                                  // the fetch promise rejected
    | Response(status: int, body: Option<T>)        // body None: response.json() rejected

  /** `response.ok`: a status in the range 200-299. */
  predicate Ok<T>(resp: Fetched<T>)
  {
    resp.Response? && 200 <= resp.status <= 299
  }

  // ----- Request URLs -----

  const SEARCH_PREFIX: string := BASE_URL + "?method=search&query="
  const SERIES_PREFIX: string := BASE_URL + "?method=series&session="
  const EPISODE_PREFIX: string := BASE_URL + "?method=episode&session="

  /** The search URL; the query goes through `encode`, which stands for
      `encodeURIComponent`. */
  function SearchUrl(query: string, encode: string -> string): (u: string)
    ensures SEARCH_PREFIX <= u && u[|SEARCH_PREFIX|..] == encode(query)
  {
    SEARCH_PREFIX + encode(query)
  }

  /** The series URL: the session token is interpolated without encoding. */
  function SeriesUrl(session: string, page: int): (u: string)
    ensures SERIES_PREFIX + session <= u
    ensures u[|SERIES_PREFIX + session|..] == "&page=" + IntToDecimal(page)
  {
    var head, tail := SERIES_PREFIX + session, "&page=" + IntToDecimal(page);
    assert (head + tail)[|head|..] == tail;
    head + tail
  }

  /** The episode URL: both session tokens are interpolated without encoding. */
  function EpisodeUrl(animeSession: string, episodeSession: string): (u: string)
    ensures EPISODE_PREFIX + animeSession + "&ep=" <= u
    ensures u[|EPISODE_PREFIX + animeSession + "&ep="|..] == episodeSession
  {
    EPISODE_PREFIX + animeSession + "&ep=" + episodeSession
  }

  predicate IsDigit(c: char)
  {
    '0' <= c <= '9'
  }

  /** The decimal digits of `n`, as a template literal prints a whole number. */
  function NatToDecimal(n: nat): (s: string)
    ensures |s| >= 1
    ensures n >= 10 ==> |s| >= 2
    ensures forall i :: 0 <= i < |s| ==> IsDigit(s[i])
  {
    if n < 10 then ["0123456789"[n]]
    else NatToDecimal(n / 10) + ["0123456789"[n % 10]]
  }

  function IntToDecimal(i: int): string
  {
    if i < 0 then "-" + NatToDecimal(-i) else NatToDecimal(i)
  }

  lemma {:induction false} NatToDecimalInjective(a: nat, b: nat)
    requires NatToDecimal(a) == NatToDecimal(b)
    ensures a == b
  {
    var sa, sb := NatToDecimal(a), NatToDecimal(b);
    if a < 10 && b < 10 {
      assert "0123456789"[a] == sa[0] == "0123456789"[b];
    } else if a >= 10 && b >= 10 {
      var pa, pb := NatToDecimal(a / 10), NatToDecimal(b / 10);
      assert sa[..|pa|] == pa && sb[..|pb|] == pb;
      assert |pa| == |sa| - 1 == |pb|;
      NatToDecimalInjective(a / 10, b / 10);
      assert "0123456789"[a % 10] == sa[|sa| - 1] == "0123456789"[b % 10];
    }
  }

  lemma IntToDecimalInjective(a: int, b: int)
    requires IntToDecimal(a) == IntToDecimal(b)
    ensures a == b
  {
    var sa, sb := IntToDecimal(a), IntToDecimal(b);
    IntToDecimalSign(a);
    IntToDecimalSign(b);
    if a < 0 {
      assert sa[1..] == NatToDecimal(-a) && sb[1..] == NatToDecimal(-b);
      NatToDecimalInjective(-a, -b);
    } else {
      NatToDecimalInjective(a, b);
    }
  }

  lemma IntToDecimalSign(i: int)
    ensures |IntToDecimal(i)| >= 1
    ensures IntToDecimal(i)[0] == '-' <==> i < 0
  {
    if i >= 0 {
      assert IsDigit(NatToDecimal(i)[0]);
    }
  }

  /** Every character after index `|a|` of `a + [sep] + r` differs from `sep`
      when `r` has none. */
  lemma NoSeparatorAfter(a: string, r: string, sep: char)
    requires forall i :: 0 <= i < |r| ==> r[i] != sep
    ensures (a + [sep] + r)[|a|] == sep
    ensures forall i :: |a| < i < |a| + 1 + |r| ==> (a + [sep] + r)[i] != sep
  {
    var u := a + [sep] + r;
    forall i | |a| < i < |u| ensures u[i] != sep {
      assert u[i] == r[i - |a| - 1];
    }
  }

  /** Splitting a string at its last `sep` character is unique. */
  lemma SplitAtLast(a1: string, r1: string, a2: string, r2: string, sep: char)
    requires a1 + [sep] + r1 == a2 + [sep] + r2
    requires forall i :: 0 <= i < |r1| ==> r1[i] != sep
    requires forall i :: 0 <= i < |r2| ==> r2[i] != sep
    ensures a1 == a2 && r1 == r2
  {
    var u := a1 + [sep] + r1;
    NoSeparatorAfter(a1, r1, sep);
    NoSeparatorAfter(a2, r2, sep);
    assert |a1| == |a2|;
    assert a1 == u[..|a1|] == a2;
    assert r1 == u[|a1| + 1..] == r2;
  }

  /** Two queries give the same search URL only when `encode` maps them to
      the same string; so for an injective encoder distinct queries give
      distinct URLs. */
  lemma SearchUrlInjective(q1: string, q2: string, encode: string -> string)
    requires SearchUrl(q1, encode) == SearchUrl(q2, encode)
    ensures encode(q1) == encode(q2)
  {
    var u := SearchUrl(q1, encode);
    assert u[|SEARCH_PREFIX|..] == encode(q1);
    assert SearchUrl(q2, encode)[|SEARCH_PREFIX|..] == encode(q2);
  }

  /** The page number is printed last and has no `&`, so the series URL
      determines both the session token and the page. */
  lemma SeriesUrlInjective(s1: string, p1: int, s2: string, p2: int)
    requires SeriesUrl(s1, p1) == SeriesUrl(s2, p2)
    ensures s1 == s2 && p1 == p2
  {
    var a1, a2 := SERIES_PREFIX + s1, SERIES_PREFIX + s2;
    var r1, r2 := "page=" + IntToDecimal(p1), "page=" + IntToDecimal(p2);
    SeriesUrlShape(s1, p1);
    SeriesUrlShape(s2, p2);
    NoAmpersandInPageTail(p1);
    NoAmpersandInPageTail(p2);
    SplitAtLast(a1, r1, a2, r2, '&');
    assert s1 == a1[|SERIES_PREFIX|..] && s2 == a2[|SERIES_PREFIX|..];
    assert IntToDecimal(p1) == r1[5..] && IntToDecimal(p2) == r2[5..];
    IntToDecimalInjective(p1, p2);
  }

  lemma SeriesUrlShape(s: string, p: int)
    ensures SeriesUrl(s, p) == (SERIES_PREFIX + s) + ['&'] + ("page=" + IntToDecimal(p))
  {
    assert "&page=" == ['&'] + "page=";
  }

  lemma NoAmpersandInPageTail(p: int)
    ensures forall i :: 0 <= i < |"page=" + IntToDecimal(p)| ==> ("page=" + IntToDecimal(p))[i] != '&'
  {
    var d := IntToDecimal(p);
    var n := if p < 0 then NatToDecimal(-p) else NatToDecimal(p);
    assert forall i :: 0 <= i < |n| ==> IsDigit(n[i]);
    forall i | 0 <= i < |"page=" + d| ensures ("page=" + d)[i] != '&' {
      if i >= 5 {
        if p < 0 && i > 5 {
          assert ("page=" + d)[i] == n[i - 6];
        } else if p >= 0 {
          assert ("page=" + d)[i] == n[i - 5];
        }
      }
    }
  }

  /** Because the tokens are not encoded, two different (series, episode)
      pairs can request the same URL. */
  lemma EpisodeUrlAmbiguous()
    ensures EpisodeUrl("a&ep=b", "c") == EpisodeUrl("a", "b&ep=c")
  {
    assert EpisodeUrl("a&ep=b", "c") == EPISODE_PREFIX + "a&ep=b&ep=c";
    assert EpisodeUrl("a", "b&ep=c") == EPISODE_PREFIX + "a&ep=b&ep=c";
  }

  // ----- Response handling -----

  /** The value `searchAnime` builds from a parsed body; None when building it
      throws (reading `results` of `null`). */
  function NormalizeBody(data: Json): (r: Option<Json>)
    ensures r.None? <==> data.JNull?
    ensures r.Some? ==> Truthy(r.value)
    ensures data.JObject? && "data" in data.fields && data.fields["data"].JArray? ==>
              r == Some(data.fields["data"])
    ensures data.JArray? ==> r == Some(data)
    ensures data.JObject? && !("data" in data.fields && data.fields["data"].JArray?) ==>
              r == Some(if "results" in data.fields && Truthy(data.fields["results"])
                        then data.fields["results"] else JArray([]))
    ensures data.JBool? || data.JNum? || data.JStr? ==> r == Some(JArray([]))
  {
    if Truthy(data) && IsArrayRead(Prop(data, "data")) then
      Some(Prop(data, "data").v)
    else if data.JArray? then
      Some(data)
    else
      match Prop(data, "results")
      case Throws => None
      case Undefined => Some(JArray([]))
      case Value(v) => Some(if Truthy(v) then v else JArray([]))
  }

  /** `searchAnime(query)`: the normalised body, or the empty list on a
      network error, a non-ok status, an unreadable body or a throw. */
  function SearchAnime(query: string, encode: string -> string, fetch: string -> Fetched<Json>): (r: Json)
    ensures Truthy(r)
    ensures !Ok(fetch(SearchUrl(query, encode))) ==> r == JArray([])
    ensures Ok(fetch(SearchUrl(query, encode))) && fetch(SearchUrl(query, encode)).body.None? ==> r == JArray([])
    ensures Ok(fetch(SearchUrl(query, encode))) && fetch(SearchUrl(query, encode)).body.Some? ==>
              r == match NormalizeBody(fetch(SearchUrl(query, encode)).body.value)
                   case None => JArray([])
                   case Some(v) => v
  {
    var resp := fetch(SearchUrl(query, encode));
    if !Ok(resp) || resp.body.None? then JArray([])
    else
      match NormalizeBody(resp.body.value)
      case None => JArray([])
      case Some(v) => v
  }

  /** A bare list, a `data` wrapper and a `results` wrapper around the same
      list all come back as that list. */
  lemma ShapesAgree(items: seq<Json>)
    ensures NormalizeBody(JArray(items)) == Some(JArray(items))
    ensures NormalizeBody(JObject(map["data" := JArray(items)])) == Some(JArray(items))
    ensures NormalizeBody(JObject(map["results" := JArray(items)])) == Some(JArray(items))
  {
  }

  /** The try/catch both pass-through clients share: the body unchanged on an
      ok status, null otherwise. */
  function Passthrough<T>(resp: Fetched<T>): (r: Option<T>)
    ensures r.Some? <==> Ok(resp) && resp.body.Some?
    ensures r.Some? ==> r.value == resp.body.value
  {
    if Ok(resp) && resp.body.Some? then resp.body else None
  }

  /** `getEpisodes(session, page)`. */
  function GetEpisodes(session: string, page: int, fetch: string -> Fetched<EpisodeResponse>): (r: Option<EpisodeResponse>)
    ensures r.Some? <==> Ok(fetch(SeriesUrl(session, page))) && fetch(SeriesUrl(session, page)).body.Some?
    ensures r.Some? ==> r.value == fetch(SeriesUrl(session, page)).body.value
  {
    Passthrough(fetch(SeriesUrl(session, page)))
  }

  /** `getDownloadLinks(animeSession, episodeSession)`. */
  function GetDownloadLinks(animeSession: string, episodeSession: string, fetch: string -> Fetched<DownloadResponse>): (r: Option<DownloadResponse>)
    ensures r.Some? <==> Ok(fetch(EpisodeUrl(animeSession, episodeSession))) && fetch(EpisodeUrl(animeSession, episodeSession)).body.Some?
    ensures r.Some? ==> r.value == fetch(EpisodeUrl(animeSession, episodeSession)).body.value
  {
    Passthrough(fetch(EpisodeUrl(animeSession, episodeSession)))
  }
}
