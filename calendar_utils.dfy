/**
 * The older, colourless projection of episodes to calendar events (src/utils/calendarUtils.ts), which
 * moves each start to local midnight of its day.
 */
module CalendarUtils {
  import opened Common
  import opened AppTypes
  import Calendar
  import Colors

  /** The placeholder colour the older projection writes for both colours. */
  const PLACEHOLDER_COLOR: string := "color"

  /**
   * `new Date(d.getFullYear(), d.getMonth(), d.getDate())`: local midnight of the same day. The getters of
   * an invalid date give NaN, and a date built from NaN is invalid again.
   */
  function Normalize(d: JsDate): (r: JsDate)
    ensures d.Invalid? <==> r.Invalid?
    ensures d.Local? ==> r.year == d.year && r.month == d.month && r.day == d.day
    ensures r.Local? ==> r.hours == 0 && r.minutes == 0 && r.seconds == 0 && r.millis == 0
  {
    match d
    case Invalid => Invalid
    case Local(year, month, day, _, _, _, _) => Local(year, month, day, 0, 0, 0, 0)
  }

  /** Normalising twice is normalising once. */
  lemma NormalizeIdempotent(d: JsDate)
    ensures Normalize(Normalize(d)) == Normalize(d)
  {
  }

  /** The event of one episode in the older projection. */
  function UtilEvent(ep: Episode, parseDate: string -> JsDate): (ev: CalendarEvent)
    ensures ev.id == ep.id && ev.title == ep.name
    ensures ev.backgroundColor == ev.borderColor == PLACEHOLDER_COLOR
    ensures ev.start == Normalize(parseDate(ep.releaseDate))
    ensures ev.extendedProps == EventProps(ep.podcastId, ep.podcastName, ep.description, ep.duration, ep.audioUrl, None)
  {
    CalendarEvent(ep.id, ep.name, Normalize(parseDate(ep.releaseDate)), PLACEHOLDER_COLOR, PLACEHOLDER_COLOR,
      EventProps(ep.podcastId, ep.podcastName, ep.description, ep.duration, ep.audioUrl, None))
  }

  /** `mapEpisodesToEvents(episodes, selectedPodcasts)` */
  function MapEpisodesToEvents(episodes: seq<Episode>, selected: seq<Podcast>, parseDate: string -> JsDate): seq<CalendarEvent>
  {
    if selected == [] then []
    else
      var shown := EpisodesOf(episodes, SelectedIds(selected));
      seq(|shown|, i requires 0 <= i < |shown| => UtilEvent(shown[i], parseDate))
  }

  /**
   * An empty selection gives no events; otherwise exactly one event per episode of a selected podcast, in
   * episode order, carrying that episode's id, bare name, normalised day and fields.
   */
  lemma MapEpisodesToEventsShape(episodes: seq<Episode>, selected: seq<Podcast>, parseDate: string -> JsDate)
    ensures selected == [] ==> MapEpisodesToEvents(episodes, selected, parseDate) == []
    ensures selected != [] ==>
      var evs := MapEpisodesToEvents(episodes, selected, parseDate);
      var shown := EpisodesOf(episodes, SelectedIds(selected));
      && |evs| == |shown|
      && (forall i :: 0 <= i < |evs| ==>
            && shown[i] in episodes && shown[i].podcastId in SelectedIds(selected)
            && evs[i].id == shown[i].id && evs[i].title == shown[i].name
            && evs[i].start == Normalize(parseDate(shown[i].releaseDate)))
  {
    if selected != [] {
      var shown := EpisodesOf(episodes, SelectedIds(selected));
      assert forall i :: 0 <= i < |shown| ==> shown[i] in shown;
    }
  }

  /**
   * The two projections agree on which episodes become events and in what order: event for event, the ids,
   * podcast ids and podcast names are the same, the store's title is the older title behind the
   * `"{podcastName}: "` prefix, and the older start is the store's start moved to local midnight.
   */
  lemma ProjectionsAgree(episodes: seq<Episode>, selected: seq<Podcast>, s: Colors.ColorState, parseDate: string -> JsDate)
    ensures var util := MapEpisodesToEvents(episodes, selected, parseDate);
      var store := Calendar.StoreEvents(episodes, selected, s, parseDate);
      && |util| == |store|
      && (forall i :: 0 <= i < |util| ==>
            && util[i].id == store[i].id
            && store[i].title == store[i].extendedProps.podcastName + ": " + util[i].title
            && util[i].start == Normalize(store[i].start)
            && util[i].extendedProps.podcastId == store[i].extendedProps.podcastId
            && util[i].extendedProps.podcastName == store[i].extendedProps.podcastName)
  {
  }
}
