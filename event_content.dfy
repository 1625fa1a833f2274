/**
 * The event content renderer of src/configs/fullcalendar.config.ts: the HTML block shown for one calendar
 * event, with the podcast prefix optionally stripped from the title and an optional aria-label.
 */
module EventContent {
  import opened Common
  import opened AppTypes
  import Calendar

  /** The options object; a missing property is `None` (`undefined`). */
  datatype RendererOptions = RendererOptions(includeA11y: Option<bool>, removePodcastPrefix: Option<bool>)

  /** A renderer with its options resolved. */
  datatype Renderer = Renderer(includeA11y: bool, removePodcastPrefix: bool)

  /** `createEventContentRenderer()` called without options. */
  const NO_OPTIONS: RendererOptions := RendererOptions(None, None)

  /** `createEventContentRenderer(options)`: a missing option takes its default. */
  function CreateEventContentRenderer(options: RendererOptions): (r: Renderer)
    ensures r.includeA11y <==> options.includeA11y != Some(false)
    ensures r.removePodcastPrefix <==> options.removePodcastPrefix == Some(true)
  {
    Renderer(
      match options.includeA11y case Some(b) => b case None => true,
      match options.removePodcastPrefix case Some(b) => b case None => false)
  }

  /** The options the calendar configuration passes for its event content. */
  const CALENDAR_OPTIONS: RendererOptions := RendererOptions(Some(true), None)

  /**
   * Without options the aria-label is on and the title is shown whole; the calendar configuration's
   * options resolve to that same renderer.
   */
  lemma DefaultRenderer()
    ensures CreateEventContentRenderer(NO_OPTIONS) == Renderer(true, false)
    ensures CreateEventContentRenderer(CALENDAR_OPTIONS) == CreateEventContentRenderer(NO_OPTIONS)
  {
  }

  predicate StartsWith(s: string, prefix: string)
  {
    |prefix| <= |s| && s[..|prefix|] == prefix
  }

  /** `extendedProps.podcastName || ''`: a missing or empty name is the empty string. */
  function NameOrEmpty(podcastName: Option<string>): (name: string)
    ensures podcastName.Some? ==> name == podcastName.value
    ensures podcastName.None? ==> name == ""
  {
    if podcastName.Some? then podcastName.value else ""
  }

  /**
   * The title shown: the event title, except that with prefix removal on, a leading `"{podcastName}: "` is
   * cut off.
   */
  function DisplayedTitle(r: Renderer, title: string, podcastName: string): (shown: string)
    ensures !r.removePodcastPrefix ==> shown == title
    ensures r.removePodcastPrefix && StartsWith(title, podcastName + ": ") ==> title == podcastName + ": " + shown
    ensures !StartsWith(title, podcastName + ": ") ==> shown == title
  {
    var prefix := podcastName + ": ";
    if r.removePodcastPrefix && StartsWith(title, prefix) then title[|prefix|..] else title
  }

  /** Stripping undoes the title the calendar store builds: `"{podcastName}: {name}"` shows as `name`. */
  lemma StripInvertsStoreTitle(r: Renderer, podcastName: string, name: string)
    requires r.removePodcastPrefix
    ensures DisplayedTitle(r, podcastName + ": " + name, podcastName) == name
  {
    var prefix := podcastName + ": ";
    assert (prefix + name)[..|prefix|] == prefix;
    assert (prefix + name)[|prefix|..] == name;
  }

  const ARIA_LABEL_OPEN: string := " aria-label=\""

  /** The accessibility attribute: present only when enabled, reading `"{podcastName} - {title}"`. */
  function A11yAttrs(r: Renderer, podcastName: string, shown: string): (attrs: string)
    ensures attrs == "" <==> !r.includeA11y
    ensures r.includeA11y ==> attrs == ARIA_LABEL_OPEN + podcastName + " - " + shown + "\""
  {
    if r.includeA11y then ARIA_LABEL_OPEN + podcastName + " - " + shown + "\"" else ""
  }

  /** The HTML template around the attribute, the shown title and the podcast name. */
  function Html(attrs: string, shown: string, podcastName: string): string
  {
    "\n        <div class=\"event-content\" " + attrs + ">\n           <div class=\"episode-title\">" + shown
      + "</div>\n           <div class=\"podcast-name\">" + podcastName + "</div>\n\n        </div>\n      "
  }

  /** The renderer applied to one event's title and `extendedProps.podcastName`. */
  function Render(r: Renderer, title: string, podcastName: Option<string>): string
  {
    var name := NameOrEmpty(podcastName);
    var episodeTitle := DisplayedTitle(r, title, name);
    Html(A11yAttrs(r, name, episodeTitle), episodeTitle, name)
  }

  /**
   * An event of the calendar store, rendered with prefix removal on, shows the bare episode name under
   * its podcast name, and with the aria-label on, labels itself `"{podcastName} - {name}"`.
   */
  lemma RenderStoreEvent(r: Renderer, ep: Episode, color: string, parseDate: string -> JsDate)
    requires r.removePodcastPrefix
    ensures var ev := Calendar.StoreEvent(ep, color, parseDate);
      Render(r, ev.title, Some(ev.extendedProps.podcastName))
        == Html(if r.includeA11y then ARIA_LABEL_OPEN + ep.podcastName + " - " + ep.name + "\"" else "", ep.name, ep.podcastName)
  {
    StripInvertsStoreTitle(r, ep.podcastName, ep.name);
  }

  /**
   * With the default options, and so in the calendar as configured, the store's title is shown whole and
   * the aria-label names the podcast twice: `"{podcastName} - {podcastName}: {name}"`.
   */
  lemma DefaultRenderStoreEvent(ep: Episode, color: string, parseDate: string -> JsDate)
    ensures var ev := Calendar.StoreEvent(ep, color, parseDate);
      Render(CreateEventContentRenderer(CALENDAR_OPTIONS), ev.title, Some(ev.extendedProps.podcastName))
        == Html(ARIA_LABEL_OPEN + ep.podcastName + " - " + ep.podcastName + ": " + ep.name + "\"",
                ep.podcastName + ": " + ep.name, ep.podcastName)
  {
    DefaultRenderer();
  }
}
