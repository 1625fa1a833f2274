# spoticast-calendar-vue: a Dafny model of its stores and helpers

spoticast-calendar-vue shows the episodes of up to five selected Spotify podcasts on a calendar. Each
podcast gets its own colour from a palette. This project models the in-memory logic behind that calendar
and proves what it does:

- **Colour allocator** (`Colors`, for `src/stores/colorStore.ts`). A pool of five palette colours plus a map
  from podcast id to colour.
  - A `Set` and a `Map` iterate in insertion order, so the model keeps the pool as a sequence and keeps
    the map's key order. That lets it state which colour comes next, exactly.
  - The invariant `Partitioned` says the pool and the assigned colours partition the palette, with no
    colour shared. Every action preserves it.
- **Episode store** (`Episodes`, for `src/stores/episodeStore.ts`). The episode list, a per-day index, a
  per-podcast index, a loading flag and one shared error message.
  - A fetch is split at its `await`: the part before it, then the part after it, which takes the fetch
    outcome as a parameter.
  - The fan-out over the selected podcasts starts every fetch before any completes.
- **Calendar projection** (`Calendar`, for `src/stores/calendarStore.ts`). `calendarEvents` reconciles the
  colours with the current selection, then turns each selected podcast's episodes into coloured events.
  `findEpisodeById` is modelled too.
  - `CalendarUtils` (`src/utils/calendarUtils.ts`) models the older, colourless projection, which moves
    each start to local midnight. A lemma relates the two projections event by event.
- **Formatters** (`Formatters`, for `src/utils/formatters.ts`).
  - Duration text (`M:SS` / `H:MM:SS`), with the fields read back by a parser.
  - Zero padding, the episode-count text and truncation with an ellipsis.
- **Event content renderer** (`EventContent`, for `createEventContentRenderer` in
  `src/configs/fullcalendar.config.ts`). Option defaults, removal of the podcast prefix, and the
  aria-label and HTML of one event.
- **Search store** (`Search`, for `src/stores/searchStore.ts`). The query, the results, the loading flag
  and the error message. The search request's outcome is a parameter.
- **Environment** (`Environment`, for `src/configs/environment.ts`). The choice between the record
  injected at run time and the record fixed at build time, followed by defaults.

## How the stores are modelled

A store whose actions update its fields is a `class`, with those fields and a `State()` function that
reads them as one value. Each action is a method whose `ensures` ties the new state to a pure function of
the old state (`State() == Finished(old(State()), ...)`). The properties the source promises are proved
as lemmas about those functions, and the store's invariant is kept as `Valid()`. Loops in the source
(`updateColorAssignments`, the date bucketing, the `forEach`/`map` of `calendarEvents`) are `while` loops
proved against the same functions.

Three things the model takes as parameters:

- **Date parsing.** `new Date(releaseDate)` and `getDateKey` depend on the platform's date parser and
  time zone, so each store gets them as functions when it is created.
  - `getDateKey` throws a `RangeError` for a date it cannot parse. Its model returns `None` there.
  - That throw ends the bucketing loop midway. The fetch then reports the message and resolves to `[]`.
    By then the batch is already in the episode list and the per-podcast index, so the day index falls
    short of the list (`FinishedWithInvalidDate`). The store invariant is therefore stated for lists
    whose dates all parse (`IndexedWhileParsed`).
- **Outcomes of the network calls.** They are given as values, either the items or the thrown value.
- **The selected podcasts.** They are given as a sequence.

The episode store does not de-duplicate fetched episodes by id, and it has no pagination cursor or
backfill threshold. The model follows the code: `RefetchDuplicates` shows that fetching the same batch
twice lists it twice.

## Model

| member | source | states |
|---|---|---|
| AppTypes.SelectedIds | src/stores/calendarStore.ts:34 | an id is in the selected set exactly when some selected podcast has it |
| AppTypes.EpisodesOf | src/stores/calendarStore.ts:45-47 | the filter keeps exactly the episodes whose podcast is selected, and never lengthens the list |
| AppTypes.EpisodesOfAppend | src/stores/calendarStore.ts:45-47 | filtering distributes over concatenation, so relative order is kept |
| AppTypes.EpisodesOfCounts | src/stores/calendarStore.ts:45-47 | each occurrence of a selected podcast's episode is kept exactly once, and no other episode is kept |
| Colors.Initial | src/stores/colorStore.ts:16-17 | the starting state satisfies the partition invariant and has no assignments |
| Colors.GetColor | src/stores/colorStore.ts:23-44 | an assigned id gets its colour and nothing changes; otherwise the first pooled colour leaves the pool and is recorded, and the id joins the end of the key order; with an empty pool it returns DISTINCT_COLORS[0] and nothing changes |
| Colors.GetColorPreserves | src/stores/colorStore.ts:23-44 | a colour request keeps the partition of the palette, and the colour returned is a palette colour |
| Colors.GetColorIdempotent | src/stores/colorStore.ts:25-27 | a second request for the same podcast returns the same colour and changes nothing |
| Colors.Release | src/stores/colorStore.ts:51-60 | an unassigned id changes nothing; otherwise the mapping is deleted, the id leaves the key order, the colour is appended to the pool |
| Colors.ReleaseDeselected | src/stores/colorStore.ts:81-85 | the walk over the assigned ids that releases each one not selected; defined by its body; properties in ReleaseDeselectedPreserves, ReleaseDeselectedMap, ReleaseDeselectedOrder and ReleaseDeselectedPool |
| Colors.UpdateAssignments | src/stores/colorStore.ts:79-86 | the release walk over the map's own key order; defined by its body; properties in UpdateAssignmentsEffect |
| Colors.ReleasePreserves | src/stores/colorStore.ts:51-59 | a release keeps the partition of the palette |
| Colors.ReleaseDeselectedPreserves | src/stores/colorStore.ts:79-86 | the release walk keeps the partition |
| Colors.ReleaseDeselectedMap | src/stores/colorStore.ts:79-86 | the walk deletes exactly the mappings of the ids not selected |
| Colors.ReleaseDeselectedOrder | src/stores/colorStore.ts:79-86 | the walk removes exactly the ids not selected from the key order |
| Colors.ReleaseDeselectedPool | src/stores/colorStore.ts:79-86 | the freed colours are appended to the pool in the order the walk visits them |
| Colors.UpdateAssignmentsEffect | src/stores/colorStore.ts:79-86 | afterwards exactly the previously assigned ids that are still selected hold a colour, each its old one; the pool gains the freed colours in Map order; the partition holds |
| Colors.ColorStore.constructor | src/stores/colorStore.ts:16-17 | the whole palette is free in palette order and nothing is assigned |
| Colors.ColorStore.GetPodcastColor | src/stores/colorStore.ts:23-44 | the returned colour and the new state are those of GetColor, and the invariant is kept |
| Colors.ColorStore.ReleasePodcastColor | src/stores/colorStore.ts:51-60 | the new state is that of Release, and the invariant is kept |
| Colors.ColorStore.ResetPodcastColors | src/stores/colorStore.ts:66-72 | the map is empty and the pool is the palette in palette order, whatever the state before |
| Colors.ColorStore.UpdateColorAssignments | src/stores/colorStore.ts:79-86 | the loop over the map's keys reaches the state of UpdateAssignments, and the invariant is kept |
| Calendar.PodcastIdsElements | src/stores/calendarStore.ts:34 | the ids visited by the colour loop are exactly the selected id set |
| Calendar.AssignAll | src/stores/calendarStore.ts:40-42 | a colour request for each selected podcast in turn; defined by its body; properties in AssignAllPreserves, AssignAllKeeps, AssignAllCovers and AssignAllExact |
| Calendar.Reconcile | src/stores/calendarStore.ts:34-42 | release of the deselected podcasts, then a colour request for each selected one; defined by its body; properties in ReconcileAssignsSelected, ReconcileDistinct, ReconcileOverflow and ReconciledIsSettled |
| Calendar.AssignAllPreserves | src/stores/calendarStore.ts:40-42 | asking for each selected podcast's colour keeps the partition |
| Calendar.AssignAllKeeps | src/stores/calendarStore.ts:40-42 | no colour is taken away or changed, only the ids asked about gain one, an empty pool changes nothing, and each id asked about ends up assigned unless the pool ran dry |
| Calendar.AssignAllCovers | src/stores/calendarStore.ts:40-42 | when the assigned ids plus the ids asked about fit in the palette, every id asked about ends up with a colour |
| Calendar.AssignAllExact | src/stores/calendarStore.ts:34-42 | from a state whose assigned ids are all among the selected ones, and at most five are selected, exactly the selected ids end up assigned |
| Calendar.ReconcileAssignsSelected | src/stores/calendarStore.ts:34-42 | with at most five podcasts selected, afterwards exactly the selected podcasts hold a colour, and a podcast that stayed selected keeps its colour |
| Calendar.ReconcileDistinct | src/stores/calendarStore.ts:37-42 | after reconciliation the partition holds, no two podcasts share a colour, and every colour handed out is a palette colour |
| Calendar.ReconcileOverflow | src/stores/colorStore.ts:40-43 | with more than five podcasts selected, some selected podcast holds no colour and is drawn in the first palette colour, which another podcast holds |
| Calendar.ReconciledIsSettled | src/stores/calendarStore.ts:49-50 | after reconciliation, asking for a selected podcast's colour in the `map` changes nothing |
| Calendar.StoreEvent | src/stores/calendarStore.ts:53-64 | the event has the episode's id, the title "{podcastName}: {name}", background and border equal to the podcast's colour, and a start parsed from the release date, and extended properties carrying the episode, its podcast id and its podcast name, with no description, duration or audio URL |
| Calendar.StoreEvents | src/stores/calendarStore.ts:45-65 | the filter of the episodes by selected podcast, then one event per episode; defined by its body; properties in StoreEvent and StoreEventsShape |
| Calendar.StoreEventsShape | src/stores/calendarStore.ts:45-65 | one event per episode of a selected podcast, in episode order, with its id and prefixed title and equal background and border; with at most five selected, that colour is the one the podcast holds |
| Calendar.FindById | src/stores/calendarStore.ts:72-74 | returns the first episode with the id, or nothing exactly when no episode has it |
| Calendar.CalendarStore.FindEpisodeById | src/stores/calendarStore.ts:72-74 | the lookup in the episode store's list; defined as FindById of that list, whose contract states the result |
| Calendar.CalendarStore.AssignColors | src/stores/calendarStore.ts:40-42 | the `forEach` loop reaches the state of AssignAll and keeps the colour invariant |
| Calendar.CalendarStore.ProjectEpisodes | src/stores/calendarStore.ts:49-65 | the `map` loop yields one event per episode, coloured by its settled podcast colour, and leaves the colour state as it was |
| Calendar.CalendarStore.CalendarEvents | src/stores/calendarStore.ts:29-66 | an empty selection gives no events and leaves the colours alone; otherwise the colour state is Reconcile of the old one, and the events are StoreEvents of the store's episodes |
| CalendarUtils.Normalize | src/utils/calendarUtils.ts:31-35 | an invalid date stays invalid; a valid one keeps its local year, month and day, and its time of day becomes zero |
| CalendarUtils.NormalizeIdempotent | src/utils/calendarUtils.ts:31-35 | normalising twice is normalising once |
| CalendarUtils.UtilEvent | src/utils/calendarUtils.ts:37-50 | the event has the episode's id, the bare name as title, both colours set to the placeholder "color", the normalised start, and copies of the podcast id, podcast name, description, duration and audio URL |
| CalendarUtils.MapEpisodesToEvents | src/utils/calendarUtils.ts:5-52 | the older projection: no events for an empty selection, otherwise one event per episode of a selected podcast; defined by its body; properties in MapEpisodesToEventsShape, UtilEvent and ProjectionsAgree |
| CalendarUtils.MapEpisodesToEventsShape | src/utils/calendarUtils.ts:9-22 | an empty selection gives no events; otherwise one event per episode of a selected podcast, in order, with its id, bare name and normalised start |
| CalendarUtils.ProjectionsAgree | src/utils/calendarUtils.ts:19-51 | both projections give the same events in the same order: same ids and podcast fields; the store's title is the older title behind "{podcastName}: "; the older start is the store's start at local midnight |
| Episodes.TransformToEpisode | src/stores/episodeStore.ts:99-112 | the podcast comes from the arguments; the audio URL is absent exactly when the preview URL is null or empty; every other item field is recovered unchanged |
| Episodes.TransformBatch | src/stores/episodeStore.ts:45-47 | one episode per item, in order, each the transform of its item |
| Episodes.ParsedPrefixShape | src/stores/episodeStore.ts:56-62 | the episodes bucketed before a throw form a prefix of the batch whose dates all parse; it stops at the end or at an unparsable date; it is the whole batch exactly when every date parses |
| Episodes.AddAllBuckets | src/stores/episodeStore.ts:56-62 | each bucketed episode lands at the end of its day's bucket, in batch order; a bucket is created only for a day one of them has; other buckets are untouched |
| Episodes.AddAll | src/stores/episodeStore.ts:56-62 | the day bucketing of a batch, stopping at the first unparsable date; defined by its body; properties in AddAllBuckets and ParsedPrefixShape |
| Episodes.IndexedDates | src/stores/episodeStore.ts:133-135 | under the index invariant, a day has a bucket exactly when some listed episode falls on it |
| Episodes.Finished | src/stores/episodeStore.ts:42-70 | on success the batch is appended to the list and replaces the podcast's bucket, and the error stays cleared unless a date failed to parse; on failure only the error message changes; the flag drops either way |
| Episodes.Started | src/stores/episodeStore.ts:39-40 | the part of a fetch before its `await`; defined by its body; properties in EpisodeStore.StartFetch and FetchedAllEffect |
| Episodes.FetchResult | src/stores/episodeStore.ts:45-67 | the value a fetch resolves to; defined by its body; properties in EpisodeStore.FinishFetch and FinishedWithInvalidDate |
| Episodes.Cleared | src/stores/episodeStore.ts:114-118 | the three collections emptied; defined by its body; properties in EpisodeStore.ClearEpisodes and FetchedAllEffect |
| Episodes.FinishedBuckets | src/stores/episodeStore.ts:56-62 | on success each bucketed episode is appended to its day's bucket, and when every date parses that is the whole batch |
| Episodes.FinishedIndexed | src/stores/episodeStore.ts:50-62 | a completed fetch whose dates all parse keeps the indexes consistent with the list |
| Episodes.FinishedKeepsInvariant | src/stores/episodeStore.ts:38-71 | every completed fetch keeps the store invariant |
| Episodes.FinishedWithInvalidDate | src/stores/episodeStore.ts:56-67 | after an unparsable date the whole batch is still listed and replaces the podcast's bucket, the error is the date error, the result is empty, and only the episodes before that date are bucketed |
| Episodes.RefetchDuplicates | src/stores/episodeStore.ts:50-53 | fetching the same batch twice lists it twice, while the podcast's bucket holds it once |
| Episodes.FinishAllEpisodes | src/stores/episodeStore.ts:85-89 | completing the fan-out appends every fetched batch, in completion order |
| Episodes.FinishAll | src/stores/episodeStore.ts:85-89 | the completions of the fan-out in selection order; defined by its body; properties in FinishAllEpisodes, FinishAllError, FinishAllKeepsInvariant and FinishAllPodcastKeys |
| Episodes.FetchedAll | src/stores/episodeStore.ts:78-90 | clear, start every fetch, then complete them; defined by its body; properties in FetchedAllEffect |
| Episodes.FinishAllError | src/stores/episodeStore.ts:85-89 | the fan-out leaves the message of the last failure, or the earlier message when none failed; the flag ends down |
| Episodes.FinishAllKeepsInvariant | src/stores/episodeStore.ts:85-89 | completing the fan-out keeps the store invariant |
| Episodes.FinishAllPodcastKeys | src/stores/episodeStore.ts:85-89 | a podcast has a bucket afterwards exactly when it had one before or one of its fetches returned items |
| Episodes.FetchedAllEffect | src/stores/episodeStore.ts:78-90 | after the fan-out the list is exactly the fetched batches in order, the invariant holds, and the error is that of the last failure; an empty selection only clears |
| Episodes.IndexByDate | src/stores/episodeStore.ts:56-62 | the bucketing loop reaches AddAll, and it completes exactly when every date in the batch parses |
| Episodes.EpisodeStore.constructor | src/stores/episodeStore.ts:22-28 | starts with empty collections, no error and the flag down, with the invariant holding |
| Episodes.EpisodeStore.StartFetch | src/stores/episodeStore.ts:39-40 | sets the flag and clears the error |
| Episodes.EpisodeStore.FinishFetch | src/stores/episodeStore.ts:42-70 | the new state is Finished of the old one, the result is the batch or nothing, and the invariant is kept |
| Episodes.EpisodeStore.FetchEpisodesForPodcast | src/stores/episodeStore.ts:38-71 | the new state is the start step followed by Finished, and the result is FetchResult |
| Episodes.EpisodeStore.ClearEpisodes | src/stores/episodeStore.ts:114-118 | empties the three collections and keeps the flag and the message |
| Episodes.EpisodeStore.FetchEpisodesForSelectedPodcasts | src/stores/episodeStore.ts:78-90 | clears, starts every fetch, then completes them in selection order, reaching FetchedAll and keeping the invariant |
| Episodes.EpisodeStore.GetEpisodesByDate | src/stores/episodeStore.ts:123-125 | an unknown day gives []; under the invariant the result is exactly the listed episodes of that day, in order |
| Episodes.EpisodeStore.GetEpisodesByPodcast | src/stores/episodeStore.ts:128-130 | an unknown podcast gives []; under the invariant every episode returned is listed and belongs to that podcast |
| Episodes.EpisodeStore.DatesWithEpisodes | src/stores/episodeStore.ts:133-135 | the keys of the day index, which under the invariant are exactly the days of listed episodes |
| Formatters.NatToString | src/utils/formatters.ts:46 | a non-empty run of digits, one digit exactly below ten, with no leading zero |
| Formatters.NatToStringRoundTrip | src/utils/formatters.ts:46 | reading the decimal text back gives the number |
| Formatters.IntToString | src/utils/formatters.ts:64 | digits and signs only; a non-negative number is written as NatToString writes it |
| Formatters.IntToStringRoundTrip | src/utils/formatters.ts:64 | reading the text back gives the number, negative numbers included |
| Formatters.PadStart | src/utils/formatters.ts:55 | the result is the target length or the original length, whichever is larger; it ends with the original and is filled in front |
| Formatters.PadZeroCases | src/utils/formatters.ts:54-56 | 0 to 9 gain a leading '0', and every other number is written unchanged |
| Formatters.PadZero | src/utils/formatters.ts:54-56 | the number padded to two characters with '0'; defined by its body; properties in PadZeroCases and PadZeroRoundTrip |
| Formatters.PadZeroRoundTrip | src/utils/formatters.ts:54-56 | the padded text is all digits and reads back as the number |
| Formatters.FormatDurationUnknown | src/utils/formatters.ts:30-32 | the text is "Unknown duration" exactly when the duration is zero or negative |
| Formatters.FormatDuration | src/utils/formatters.ts:29-47 | the fixed text for no duration, otherwise the clock text of the whole seconds; defined by its body; properties in FormatDurationUnknown, FormatDurationMinutes, FormatDurationHours and FormatDurationRoundTrip |
| Formatters.Clock | src/utils/formatters.ts:35-46 | the `M:SS` or `H:MM:SS` text of a number of seconds; defined by its body; properties in ClockRoundTrip |
| Formatters.FormatDurationMinutes | src/utils/formatters.ts:35-46 | under an hour, the fields are the whole minutes and the padded seconds |
| Formatters.FormatDurationHours | src/utils/formatters.ts:40-44 | from an hour on, the fields are the hours, the padded minutes below sixty and the padded seconds |
| Formatters.ClockRoundTrip | src/utils/formatters.ts:35-46 | the clock text of a number of seconds reads back as that number; it has three fields exactly from an hour on and two below; every later field is two digits below sixty |
| Formatters.FormatDurationRoundTrip | src/utils/formatters.ts:29-47 | for a positive duration the fields recombine to its whole seconds; it has three fields exactly from an hour on and two below; every later field is two digits below sixty |
| Formatters.EpisodeCountRoundTrip | src/utils/formatters.ts:63-65 | the text is the number, read back exactly, then one word, which is "episode" exactly when the count is one and "episodes" otherwise |
| Formatters.FormatEpisodeCount | src/utils/formatters.ts:63-65 | the count, a space and the noun in the singular exactly for one; defined by its body; properties in EpisodeCountRoundTrip |
| Formatters.TruncateText | src/utils/formatters.ts:73-79 | on UTF-16 code units: missing or empty text gives no units; text whose length in code units is within the limit is kept; longer text keeps its first maxLength code units (none for a negative limit) followed by "..." |
| Formatters.Utf16NotShorter | src/utils/formatters.ts:74 | `length` counts at least one unit per character and exactly one for each when all lie below U+10000 |
| Formatters.TruncateBasicPlane | src/utils/formatters.ts:73-79 | for text below U+10000 the limit counts characters: the first maxLength characters, then "..." |
| Formatters.TruncateAstral | src/utils/formatters.ts:74-78 | a character above U+FFFF counts twice: two emoji are cut after the first at limit 2, and inside the second's surrogate pair at limit 3 |
| EventContent.CreateEventContentRenderer | src/configs/fullcalendar.config.ts:23-29 | the aria-label is on unless explicitly disabled, and prefix removal is on only when explicitly enabled |
| EventContent.DefaultRenderer | src/configs/fullcalendar.config.ts:92 | no options give the aria-label on and prefix removal off, and the calendar's own options resolve to the same renderer |
| EventContent.NameOrEmpty | src/configs/fullcalendar.config.ts:32 | a missing podcast name is the empty string |
| EventContent.DisplayedTitle | src/configs/fullcalendar.config.ts:33-41 | with removal off the title is unchanged; with removal on, a leading "{podcastName}: " is cut off exactly; a title without that prefix is unchanged |
| EventContent.StripInvertsStoreTitle | src/configs/fullcalendar.config.ts:36-41 | stripping the title "{podcastName}: {name}" that the calendar store builds gives back the name |
| EventContent.A11yAttrs | src/configs/fullcalendar.config.ts:49 | the attribute is empty exactly when accessibility is off; otherwise it is the aria-label "{podcastName} - {shown title}" |
| EventContent.Html | src/configs/fullcalendar.config.ts:51-59 | the HTML template around the attribute, the shown title and the podcast name; defined by its body; properties in RenderStoreEvent and DefaultRenderStoreEvent |
| EventContent.Render | src/configs/fullcalendar.config.ts:31-60 | the renderer applied to one event; defined by its body; properties in RenderStoreEvent and DefaultRenderStoreEvent |
| EventContent.RenderStoreEvent | src/configs/fullcalendar.config.ts:31-60 | with prefix removal on, a calendar-store event renders its bare episode name under its podcast name, labelled "{podcastName} - {name}" |
| EventContent.DefaultRenderStoreEvent | src/configs/fullcalendar.config.ts:31-60 | as the calendar is configured, a calendar-store event shows its full title, and its label names the podcast twice |
| Search.PerformSearchEffect | src/stores/searchStore.ts:26-38 | the query is recorded and the flag drops; success replaces the results and leaves no error; failure keeps the results and sets the message, or "An error occurred" for a thrown non-Error |
| Search.Began | src/stores/searchStore.ts:27-29 | the part of a search before its `await`; defined by its body; properties in PerformSearchEffect and OutOfOrderReplies |
| Search.Ended | src/stores/searchStore.ts:30-37 | the part of a search after its `await`; defined by its body; properties in PerformSearchEffect, SuccessForgetsHistory and OutOfOrderReplies |
| Search.SuccessForgetsHistory | src/stores/searchStore.ts:27-32 | a successful search leaves a state that does not depend on the state before it |
| Search.OutOfOrderReplies | src/stores/searchStore.ts:26-38 | when two searches overlap and their replies arrive in reverse order, the later query ends up beside the earlier query's results |
| Search.ResetEffect | src/stores/searchStore.ts:40-44 | reset gives the initial state except for the loading flag, which it leaves alone; resetting twice is resetting once |
| Search.Reset | src/stores/searchStore.ts:40-44 | the query, results and error reset; defined by its body; properties in ResetEffect |
| Search.SearchStore.constructor | src/stores/searchStore.ts:19-24 | empty query and results, the flag down, no error |
| Search.SearchStore.BeginSearch | src/stores/searchStore.ts:27-29 | records the query, sets the flag and clears the error |
| Search.SearchStore.FinishSearch | src/stores/searchStore.ts:30-37 | the try, catch and finally blocks: the new state is Ended of the old one |
| Search.SearchStore.PerformSearch | src/stores/searchStore.ts:26-38 | the new state is Began followed by Ended |
| Search.SearchStore.ResetSearch | src/stores/searchStore.ts:40-44 | the new state is Reset of the old one |
| Environment.OrElse | src/configs/environment.ts:28-33 | a present, non-empty value is kept, and otherwise the fallback is used |
| Environment.GetEffectiveEnv | src/configs/environment.ts:21-25 | the run-time record is chosen exactly when it exists and its client id is non-empty and not the placeholder; otherwise the build-time record is chosen |
| Environment.MakeEnvironment | src/configs/environment.ts:27-34 | the chosen record's values with their defaults; defined by its body; properties in EnvironmentFromOneRecord and NoFieldFallback |
| Environment.EnvironmentFromOneRecord | src/configs/environment.ts:27-34 | every value comes from the one chosen record, with "local" as the default application environment and "" as the default for the others; the application environment is never empty |
| Environment.NoFieldFallback | src/configs/environment.ts:21-34 | a usable run-time record wins even for values it lacks, which become "" instead of the build-time values |
| Environment.PlaceholderIgnored | src/configs/environment.ts:21-25 | a run-time record whose client id is the placeholder, or missing or empty, is ignored entirely |

## Left out

- The HTTP layer (`src/api/spotify.ts`, `src/auth/getAccessToken.ts`): the model receives each request's outcome, either the items or the thrown value.
- Date and time-zone behaviour is a parameter, as described above:
  - `new Date(releaseDate)` is given as a function to `JsDate`.
  - `getDateKey` is given as a function that returns `None` where `toISOString` throws.
  - The message "Invalid time value" is the V8 wording of that `RangeError`; other engines word it differently.
- Normalize (CalendarUtils.Normalize): the local-midnight date is stated over its year, month and day fields. Daylight-saving gaps, where local midnight does not exist, and out-of-range years are not modelled.
- `formatDate` (`toLocaleDateString`) is locale formatting and is not part of this model.
- The `Promise.all` fan-out is modelled as one interleaving: every fetch starts, then they complete in selection order. Other completion orders would change only the order of the episode list, the day buckets and which error message survives.
- Vue/Pinia reactivity and `computed` caching are not modelled. `calendarEvents` is a method that is called explicitly.
- The selection registry and its five-podcast cap live in a store that is not part of this model. The selection is an input, and the lemmas that need the cap state it as a precondition.
- Numbers are mathematical integers. `formatDuration`, `formatEpisodeCount` and `truncateText` are not modelled for fractional, NaN or infinite arguments.
- FormatDurationRoundTrip (Formatters.FormatDurationRoundTrip): stated for positive integral durations only, because zero and negative durations give the fixed text (covered by `FormatDurationUnknown`).
- `null` and `undefined` are not told apart. Both are `None`, which is what the `||` and `?.` code paths do with them.
- CreateEventContentRenderer (EventContent.CreateEventContentRenderer): a missing option is `None`, which stands for `undefined` only; the declared option types exclude `null`. A `null` option or a `null` options argument is not modelled. The destructuring defaults do not replace `null`, so a `null` `includeA11y` would turn the label off and a `null` options argument would throw a `TypeError`.
- `Object.keys(episodesByDate)` returns its keys in insertion order; `DatesWithEpisodes` returns them as a set. Keys that collide with `Object.prototype` members are not modelled.
- TransformToEpisode (Episodes.TransformToEpisode): missing item fields (`undefined` description, duration or uri) are not modelled, because the item type declares them as always present.
- `getCalendarOptions` is FullCalendar configuration and DOM listener wiring; only the renderer options it passes are modelled (`DefaultRenderer`). The keyboard navigation utilities and the components are not part of this model.
- `console.warn` output is not modelled.
