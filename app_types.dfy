/**
 * The application's record shapes (src/types/app.type.ts) and the one operation the two calendar
 * projections share: keeping the episodes of the selected podcasts, in order.
 */
module AppTypes {
  import opened Common

  /** A JavaScript `Date` as read through its local-time getters; `Invalid` is a Date whose time value is NaN. */
  datatype JsDate =
    | Invalid
    | Local(year: int, month: int, day: int, hours: int, minutes: int, seconds: int, millis: int)

  /** A podcast (Spotify "show") as the selection registry holds it. */
  datatype Podcast = Podcast(
    id: string,
    name: string,
    kind: string,
    description: string,
    imageUrl: Option<string>,
    color: Option<string>,
    publisher: string,
    uri: Option<string>,
    totalEpisodes: int)

  /** One episode of one podcast. */
  datatype Episode = Episode(
    id: string,
    podcastId: string,
    podcastName: string,
    name: string,
    description: Option<string>,
    releaseDate: string,
    releaseDatePrecision: string,
    duration: Option<int>,
    audioUrl: Option<string>,
    uri: Option<string>)

  /**
   * The `extendedProps` of a calendar event. The declared interface lists the first five; the calendar
   * store also attaches the whole episode, which is the last field here (absent in the older projection).
   */
  datatype EventProps = EventProps(
    podcastId: string,
    podcastName: string,
    description: Option<string>,
    duration: Option<int>,
    audioUrl: Option<string>,
    episode: Option<Episode>)

  /** An event in the calendar widget's input format. */
  datatype CalendarEvent = CalendarEvent(
    id: string,
    title: string,
    start: JsDate,
    backgroundColor: string,
    borderColor: string,
    extendedProps: EventProps)

  /** The set of ids of the selected podcasts: `new Set(selectedPodcasts.map((podcast) => podcast.id))`. */
  function SelectedIds(selected: seq<Podcast>): (ids: set<string>)
    ensures forall id :: id in ids <==> exists i :: 0 <= i < |selected| && selected[i].id == id
  {
    set p | p in selected :: p.id
  }

  /**
   * `episodes.filter((episode) => ids.has(episode.podcastId))`: the episodes of the given podcasts,
   * in their original order.
   */
  function EpisodesOf(episodes: seq<Episode>, ids: set<string>): (r: seq<Episode>)
    ensures |r| <= |episodes|
    ensures forall e :: e in r <==> e in episodes && e.podcastId in ids
  {
    if episodes == [] then []
    else (if episodes[0].podcastId in ids then [episodes[0]] else []) + EpisodesOf(episodes[1..], ids)
  }

  /** Filtering distributes over concatenation: the filter keeps relative order. */
  lemma {:induction false} EpisodesOfAppend(a: seq<Episode>, b: seq<Episode>, ids: set<string>)
    ensures EpisodesOf(a + b, ids) == EpisodesOf(a, ids) + EpisodesOf(b, ids)
  {
    if a != [] {
      assert (a + b)[1..] == a[1..] + b;
      EpisodesOfAppend(a[1..], b, ids);
    } else {
      assert a + b == b;
    }
  }

  /**
   * Exactly one copy is kept of each occurrence of a selected podcast's episode, and none of any other:
   * the filter neither duplicates nor merges episodes.
   */
  lemma {:induction false} EpisodesOfCounts(episodes: seq<Episode>, ids: set<string>)
    ensures forall e :: multiset(EpisodesOf(episodes, ids))[e] == if e.podcastId in ids then multiset(episodes)[e] else 0
  {
    if episodes != [] {
      EpisodesOfCounts(episodes[1..], ids);
      assert episodes == [episodes[0]] + episodes[1..];
    }
  }
}
