/** The records the services hand to the views. */
module Types {

  /** One hit of the search service. `kind` is the record's `type` field,
      a reserved word here. `session` is the opaque key of the series. */
  datatype AnimeSearchResult = AnimeSearchResult(
    id: int,
    title: string,
    kind: string,
    episodes: int,
    status: string,
    season: string,
    year: int,
    score: real,
    poster: string,
    session: string)

  /** An episode stub: its display label, its opaque key and a thumbnail. */
  datatype Episode = Episode(episode: string, session: string, snapshot: string)

  /** The `next` field is either a boolean or a string. */
  datatype NextMarker = NextFlag(flag: bool) | NextLink(link: string)

  /** One page of a series' episode list; the service decides the page count. */
  datatype EpisodeResponse = EpisodeResponse(
    title: string,
    total: int,
    page: int,
    totalPages: int,
    next: NextMarker,
    episodes: seq<Episode>)

  /** A named, directly playable mirror of an episode. */
  datatype DownloadItem = DownloadItem(link: string, name: string)

  type DownloadResponse = seq<DownloadItem>
}
