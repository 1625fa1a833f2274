/**
 * The episode store (src/stores/episodeStore.ts): the list of loaded episodes and two indexes over it,
 * one by calendar-day key and one by podcast, plus a loading flag and an error message shared by all
 * fetches.
 *
 * The HTTP call is not part of the model: each fetch takes its outcome (the fetched items, or what was
 * thrown) as a parameter. `getDateKey` parses a date and renders its UTC day, and throws for a date the
 * platform cannot parse; that depends on the platform's date parser, so the store is given it as a
 * function, `None` standing for the throw, when it is created.
 */
module Episodes {
  import opened Common
  import opened AppTypes

  /** The fields of a Spotify episode item that the store reads (src/types/Spotify.type.ts). */
  datatype EpisodeItem = EpisodeItem(
    id: string,
    name: string,
    description: string,
    releaseDate: string,
    releaseDatePrecision: string,
    durationMs: int,
    audioPreviewUrl: Option<string>,
    uri: string)

  /** What the awaited `fetchEpisodes(podcastId)` gives: the items, or the value it threw. */
  datatype FetchOutcome = Fetched(items: seq<EpisodeItem>) | FetchFailed(err: Thrown)

  const FETCH_FAILED_MESSAGE := "Failed to fetch episodes"

  /** The message of the `RangeError` that `toISOString` throws for an invalid date, as V8 words it. */
  const INVALID_DATE_MESSAGE := "Invalid time value"

  /**
   * The item an episode was made from, as far as the episode records it (a missing preview URL reads back
   * as `null`). Used to state that `TransformToEpisode` loses nothing else.
   */
  function SourceItem(e: Episode): EpisodeItem
  {
    EpisodeItem(
      e.id, e.name,
      match e.description case Some(d) => d case None => "",
      e.releaseDate, e.releaseDatePrecision,
      match e.duration case Some(d) => d case None => 0,
      e.audioUrl,
      match e.uri case Some(u) => u case None => "")
  }

  /**
   * `transformToEpisode(item, podcastId, podcastName)`: the episode takes its podcast from the arguments
   * and everything else from the item; `audio_preview_url || undefined` drops an empty or null preview URL.
   */
  function TransformToEpisode(item: EpisodeItem, podcastId: string, podcastName: string): (e: Episode)
    ensures e.podcastId == podcastId && e.podcastName == podcastName
    ensures e.audioUrl.None? <==> item.audioPreviewUrl == None || item.audioPreviewUrl == Some("")
    ensures SourceItem(e) == item.(audioPreviewUrl := if item.audioPreviewUrl == Some("") then None else item.audioPreviewUrl)
  {
    Episode(
      id := item.id,
      podcastId := podcastId,
      podcastName := podcastName,
      name := item.name,
      description := Some(item.description),
      releaseDate := item.releaseDate,
      releaseDatePrecision := item.releaseDatePrecision,
      duration := Some(item.durationMs),
      audioUrl := if item.audioPreviewUrl == Some("") then None else item.audioPreviewUrl,
      uri := Some(item.uri))
  }

  /** `episodeItems.map((item) => this.transformToEpisode(item, podcastId, podcastName))` */
  function TransformBatch(items: seq<EpisodeItem>, podcastId: string, podcastName: string): (batch: seq<Episode>)
    ensures |batch| == |items|
    ensures forall i :: 0 <= i < |items| ==> batch[i] == TransformToEpisode(items[i], podcastId, podcastName)
  {
    seq(|items|, i requires 0 <= i < |items| => TransformToEpisode(items[i], podcastId, podcastName))
  }

  /** Every episode of a batch belongs to the podcast the batch was fetched for. */
  lemma BatchOfPodcast(items: seq<EpisodeItem>, podcastId: string, podcastName: string)
    ensures forall e :: e in TransformBatch(items, podcastId, podcastName) ==> e.podcastId == podcastId
  {
    var batch := TransformBatch(items, podcastId, podcastName);
    forall e | e in batch
      ensures e.podcastId == podcastId
    {
      var i :| 0 <= i < |batch| && batch[i] == e;
    }
  }

  /** Every episode's release date has a day key. */
  predicate AllParse(episodes: seq<Episode>, dateKey: string -> Option<string>)
  {
    forall i :: 0 <= i < |episodes| ==> dateKey(episodes[i].releaseDate).Some?
  }

  /** The episodes before the first one whose release date has no day key. */
  function ParsedPrefix(batch: seq<Episode>, dateKey: string -> Option<string>): seq<Episode>
  {
    if batch == [] || dateKey(batch[0].releaseDate).None? then []
    else [batch[0]] + ParsedPrefix(batch[1..], dateKey)
  }

  /**
   * The parsed prefix is a prefix of the batch whose dates all parse, and it stops either at the end of the
   * batch or at an episode whose date does not parse; so it is the whole batch exactly when all parse.
   */
  lemma {:induction false} ParsedPrefixShape(batch: seq<Episode>, dateKey: string -> Option<string>)
    ensures var p := ParsedPrefix(batch, dateKey);
      && |p| <= |batch| && p == batch[..|p|]
      && AllParse(p, dateKey)
      && (|p| < |batch| ==> dateKey(batch[|p|].releaseDate).None?)
      && (p == batch <==> AllParse(batch, dateKey))
  {
    if batch != [] && dateKey(batch[0].releaseDate).Some? {
      ParsedPrefixShape(batch[1..], dateKey);
      var p := ParsedPrefix(batch, dateKey);
      var q := ParsedPrefix(batch[1..], dateKey);
      assert p == [batch[0]] + q;
      assert batch[1..][..|q|] == batch[1..|q| + 1];
      if AllParse(batch, dateKey) {
        assert AllParse(batch[1..], dateKey) by {
          forall i | 0 <= i < |batch[1..]| ensures dateKey(batch[1..][i].releaseDate).Some? {
            assert batch[1..][i] == batch[i + 1];
          }
        }
      }
      if AllParse(batch[1..], dateKey) {
        forall i | 0 <= i < |batch| ensures dateKey(batch[i].releaseDate).Some? {
          if i > 0 {
            assert batch[i] == batch[1..][i - 1];
          }
        }
      }
    }
  }

  /** `record[key] || []` */
  function Bucket(m: map<string, seq<Episode>>, key: string): seq<Episode>
  {
    if key in m then m[key] else []
  }

  /** The episodes whose release date has the given day key, in order. */
  function OnDate(episodes: seq<Episode>, key: string, dateKey: string -> Option<string>): seq<Episode>
  {
    if episodes == [] then []
    else (if dateKey(episodes[0].releaseDate) == Some(key) then [episodes[0]] else []) + OnDate(episodes[1..], key, dateKey)
  }

  /** A day has no episodes exactly when no episode's release date has that day key. */
  lemma {:induction false} OnDateEmpty(episodes: seq<Episode>, key: string, dateKey: string -> Option<string>)
    ensures OnDate(episodes, key, dateKey) == [] <==> forall e :: e in episodes ==> dateKey(e.releaseDate) != Some(key)
  {
    if episodes != [] {
      OnDateEmpty(episodes[1..], key, dateKey);
      assert forall e :: e in episodes ==> e == episodes[0] || e in episodes[1..];
    }
  }

  lemma {:induction false} OnDateAppend(a: seq<Episode>, b: seq<Episode>, key: string, dateKey: string -> Option<string>)
    ensures OnDate(a + b, key, dateKey) == OnDate(a, key, dateKey) + OnDate(b, key, dateKey)
  {
    if a == [] {
      assert a + b == b;
    } else {
      var ab := a + b;
      assert ab[0] == a[0];
      assert ab[1..] == a[1..] + b;
      OnDateAppend(a[1..], b, key, dateKey);
      var head := if dateKey(a[0].releaseDate) == Some(key) then [a[0]] else [];
      assert OnDate(ab, key, dateKey) == head + OnDate(a[1..] + b, key, dateKey);
      assert head + (OnDate(a[1..], key, dateKey) + OnDate(b, key, dateKey))
        == (head + OnDate(a[1..], key, dateKey)) + OnDate(b, key, dateKey);
    }
  }

  /** One step of the bucketing loop: create the bucket if absent, then append the episode to it. */
  function AddToBucket(m: map<string, seq<Episode>>, e: Episode, key: string): map<string, seq<Episode>>
  {
    m[key := Bucket(m, key) + [e]]
  }

  /**
   * The bucketing loop over a whole batch, in batch order; it ends at the first episode whose date has
   * no key, where `getDateKey` throws out of the loop.
   */
  function AddAll(m: map<string, seq<Episode>>, batch: seq<Episode>, dateKey: string -> Option<string>): map<string, seq<Episode>>
    decreases |batch|
  {
    if batch == [] then m
    else match dateKey(batch[0].releaseDate)
      case None => m
      case Some(key) => AddAll(AddToBucket(m, batch[0], key), batch[1..], dateKey)
  }

  /**
   * What the bucketing loop over `batch` does to `m`: each episode before the first unparsable date lands
   * at the end of the bucket of its own day, in batch order; a bucket is created only for a day such an
   * episode has; other buckets are untouched.
   */
  ghost predicate BucketsAfter(m: map<string, seq<Episode>>, batch: seq<Episode>, dateKey: string -> Option<string>)
  {
    && (forall key :: Bucket(AddAll(m, batch, dateKey), key) == Bucket(m, key) + OnDate(ParsedPrefix(batch, dateKey), key, dateKey))
    && (forall key :: key in AddAll(m, batch, dateKey) <==> key in m || OnDate(ParsedPrefix(batch, dateKey), key, dateKey) != [])
  }

  /** The day episodes of a parsed prefix that starts with a parsable episode: that one first if it is of the day. */
  lemma OnDateParsedStep(batch: seq<Episode>, dateKey: string -> Option<string>, key: string)
    requires batch != [] && dateKey(batch[0].releaseDate).Some?
    ensures OnDate(ParsedPrefix(batch, dateKey), key, dateKey)
      == (if dateKey(batch[0].releaseDate) == Some(key) then [batch[0]] else []) + OnDate(ParsedPrefix(batch[1..], dateKey), key, dateKey)
  {
    var rest := ParsedPrefix(batch[1..], dateKey);
    assert ParsedPrefix(batch, dateKey) == [batch[0]] + rest;
    assert ([batch[0]] + rest)[1..] == rest;
  }

  /** One step of the bucketing loop, for one day: the first episode's effect on its bucket, then the rest's. */
  lemma AddAllStepKey(m: map<string, seq<Episode>>, batch: seq<Episode>, dateKey: string -> Option<string>, key: string)
    requires batch != [] && dateKey(batch[0].releaseDate).Some?
    requires var m' := AddToBucket(m, batch[0], dateKey(batch[0].releaseDate).value);
      var rest := OnDate(ParsedPrefix(batch[1..], dateKey), key, dateKey);
      && Bucket(AddAll(m', batch[1..], dateKey), key) == Bucket(m', key) + rest
      && (key in AddAll(m', batch[1..], dateKey) <==> key in m' || rest != [])
    ensures var on := OnDate(ParsedPrefix(batch, dateKey), key, dateKey);
      && Bucket(AddAll(m, batch, dateKey), key) == Bucket(m, key) + on
      && (key in AddAll(m, batch, dateKey) <==> key in m || on != [])
  {
    var k0 := dateKey(batch[0].releaseDate).value;
    var m' := AddToBucket(m, batch[0], k0);
    var r := AddAll(m', batch[1..], dateKey);
    var rest := OnDate(ParsedPrefix(batch[1..], dateKey), key, dateKey);
    var on := OnDate(ParsedPrefix(batch, dateKey), key, dateKey);
    var first: seq<Episode> := if k0 == key then [batch[0]] else [];
    assert AddAll(m, batch, dateKey) == r;
    assert on == first + rest by {
      OnDateParsedStep(batch, dateKey, key);
    }
    assert Bucket(m', key) == Bucket(m, key) + first;
    assert key in m' <==> key in m || k0 == key;
    BucketStep(Bucket(m, key), first, rest);
  }

  /** Appending to a bucket in two steps is appending once; the appended part is empty only if both are. */
  lemma BucketStep(before: seq<Episode>, first: seq<Episode>, rest: seq<Episode>)
    ensures (before + first) + rest == before + (first + rest)
    ensures first + rest != [] <==> first != [] || rest != []
  {
  }

  /** One step of the bucketing loop: the effect on `m` is the first episode's, then the rest's. */
  lemma AddAllStep(m: map<string, seq<Episode>>, batch: seq<Episode>, dateKey: string -> Option<string>)
    requires batch != [] && dateKey(batch[0].releaseDate).Some?
    requires BucketsAfter(AddToBucket(m, batch[0], dateKey(batch[0].releaseDate).value), batch[1..], dateKey)
    ensures BucketsAfter(m, batch, dateKey)
  {
    forall key
      ensures Bucket(AddAll(m, batch, dateKey), key) == Bucket(m, key) + OnDate(ParsedPrefix(batch, dateKey), key, dateKey)
      ensures key in AddAll(m, batch, dateKey) <==> key in m || OnDate(ParsedPrefix(batch, dateKey), key, dateKey) != []
    {
      AddAllStepKey(m, batch, dateKey, key);
    }
  }

  /** The bucketing loop over a whole batch has the effect `BucketsAfter` describes. */
  lemma {:induction false} AddAllBuckets(m: map<string, seq<Episode>>, batch: seq<Episode>, dateKey: string -> Option<string>)
    ensures forall key :: Bucket(AddAll(m, batch, dateKey), key) == Bucket(m, key) + OnDate(ParsedPrefix(batch, dateKey), key, dateKey)
    ensures forall key :: key in AddAll(m, batch, dateKey) <==> key in m || OnDate(ParsedPrefix(batch, dateKey), key, dateKey) != []
    decreases |batch|
  {
    if batch != [] && dateKey(batch[0].releaseDate).Some? {
      AddAllBuckets(AddToBucket(m, batch[0], dateKey(batch[0].releaseDate).value), batch[1..], dateKey);
      AddAllStep(m, batch, dateKey);
    } else {
      assert ParsedPrefix(batch, dateKey) == [];
    }
  }

  /** The store's state. */
  datatype EpisodeState = EpisodeState(
    episodes: seq<Episode>,
    episodesByDate: map<string, seq<Episode>>,
    episodesByPodcast: map<string, seq<Episode>>,
    isLoading: bool,
    error: Option<string>)

  /** The initial state, and the three collections after `clearEpisodes`. */
  function Empty(): EpisodeState
  {
    EpisodeState([], map[], map[], false, None)
  }

  /**
   * The indexes agree with the episode list: the bucket of every day is exactly the list's episodes of that
   * day, in list order, and no bucket is empty; every per-podcast bucket holds only listed episodes of that
   * podcast.
   */
  ghost predicate Indexed(s: EpisodeState, dateKey: string -> Option<string>)
  {
    && (forall key :: key in s.episodesByDate ==> s.episodesByDate[key] != [])
    && (forall key :: Bucket(s.episodesByDate, key) == OnDate(s.episodes, key, dateKey))
    && (forall p, e :: p in s.episodesByPodcast && e in s.episodesByPodcast[p] ==> e in s.episodes && e.podcastId == p)
  }

  /**
   * The store's invariant: the indexes agree with the list as long as every listed release date parses.
   * A fetch that meets an unparsable date leaves the day index short of the list until the next clear.
   */
  ghost predicate IndexedWhileParsed(s: EpisodeState, dateKey: string -> Option<string>)
  {
    AllParse(s.episodes, dateKey) ==> Indexed(s, dateKey)
  }

  /** Under the index invariant, a day has a bucket exactly when some listed episode falls on it. */
  lemma IndexedDates(s: EpisodeState, dateKey: string -> Option<string>)
    ensures Indexed(s, dateKey) ==>
      forall d :: d in s.episodesByDate <==> exists e :: e in s.episodes && dateKey(e.releaseDate) == Some(d)
  {
    if Indexed(s, dateKey) {
      forall d
        ensures d in s.episodesByDate <==> exists e :: e in s.episodes && dateKey(e.releaseDate) == Some(d)
      {
        OnDateEmpty(s.episodes, d, dateKey);
        assert Bucket(s.episodesByDate, d) == OnDate(s.episodes, d, dateKey);
      }
    }
  }

  /** What `fetchEpisodesForPodcast` does before its `await`. */
  function Started(s: EpisodeState): EpisodeState
  {
    s.(isLoading := true, error := None)
  }

  /**
   * What `fetchEpisodesForPodcast` does after its `await`. On success the batch is appended to the list,
   * replaces the podcast's bucket and is added to the day buckets; an unparsable date ends the bucketing
   * and sets the error message. On failure only the error message is set. Either way the flag drops.
   */
  function Finished(s: EpisodeState, podcastId: string, podcastName: string, outcome: FetchOutcome, dateKey: string -> Option<string>): (r: EpisodeState)
    ensures !r.isLoading
    ensures outcome.Fetched? ==>
      var batch := TransformBatch(outcome.items, podcastId, podcastName);
      && r.episodes == s.episodes + batch
      && r.episodesByPodcast == s.episodesByPodcast[podcastId := batch]
      && r.error == (if AllParse(batch, dateKey) then s.error else Some(INVALID_DATE_MESSAGE))
    ensures outcome.FetchFailed? ==>
      r == s.(isLoading := false, error := Some(MessageOf(outcome.err, FETCH_FAILED_MESSAGE)))
  {
    match outcome
    case Fetched(items) =>
      var batch := TransformBatch(items, podcastId, podcastName);
      EpisodeState(
        s.episodes + batch,
        AddAll(s.episodesByDate, batch, dateKey),
        s.episodesByPodcast[podcastId := batch],
        false,
        if AllParse(batch, dateKey) then s.error else Some(INVALID_DATE_MESSAGE))
    case FetchFailed(err) =>
      s.(isLoading := false, error := Some(MessageOf(err, FETCH_FAILED_MESSAGE)))
  }

  /** The value `fetchEpisodesForPodcast` resolves to: the batch, or nothing when anything threw. */
  function FetchResult(podcastId: string, podcastName: string, outcome: FetchOutcome, dateKey: string -> Option<string>): seq<Episode>
  {
    match outcome
    case Fetched(items) =>
      var batch := TransformBatch(items, podcastId, podcastName);
      if AllParse(batch, dateKey) then batch else []
    case FetchFailed(_) => []
  }

  /** `clearEpisodes()`: the three collections emptied, the flag and the message kept. */
  function Cleared(s: EpisodeState): EpisodeState
  {
    s.(episodes := [], episodesByDate := map[], episodesByPodcast := map[])
  }

  /**
   * On success, each batch episode before the first unparsable date is appended at the end of the bucket
   * of its day; when every date parses that is the whole batch.
   */
  lemma FinishedBuckets(s: EpisodeState, podcastId: string, podcastName: string, items: seq<EpisodeItem>, dateKey: string -> Option<string>)
    ensures var r := Finished(s, podcastId, podcastName, Fetched(items), dateKey);
      var batch := TransformBatch(items, podcastId, podcastName);
      var bucketed := ParsedPrefix(batch, dateKey);
      && (AllParse(batch, dateKey) ==> bucketed == batch)
      && (forall key :: Bucket(r.episodesByDate, key) == Bucket(s.episodesByDate, key) + OnDate(bucketed, key, dateKey))
      && (forall key :: key in r.episodesByDate <==> key in s.episodesByDate || OnDate(bucketed, key, dateKey) != [])
  {
    var batch := TransformBatch(items, podcastId, podcastName);
    ParsedPrefixShape(batch, dateKey);
    AddAllBuckets(s.episodesByDate, batch, dateKey);
  }

  /** A completed fetch whose dates all parse keeps the indexes consistent with the list. */
  lemma FinishedIndexed(s: EpisodeState, podcastId: string, podcastName: string, outcome: FetchOutcome, dateKey: string -> Option<string>)
    requires Indexed(s, dateKey)
    requires outcome.Fetched? ==> AllParse(TransformBatch(outcome.items, podcastId, podcastName), dateKey)
    ensures Indexed(Finished(s, podcastId, podcastName, outcome, dateKey), dateKey)
  {
    if outcome.Fetched? {
      var r := Finished(s, podcastId, podcastName, outcome, dateKey);
      var batch := TransformBatch(outcome.items, podcastId, podcastName);
      assert forall key :: Bucket(r.episodesByDate, key) == OnDate(r.episodes, key, dateKey) by {
        FinishedBuckets(s, podcastId, podcastName, outcome.items, dateKey);
        forall key
          ensures Bucket(r.episodesByDate, key) == OnDate(r.episodes, key, dateKey)
        {
          OnDateAppend(s.episodes, batch, key, dateKey);
        }
      }
      assert forall key :: key in r.episodesByDate ==> r.episodesByDate[key] != [] by {
        FinishedBuckets(s, podcastId, podcastName, outcome.items, dateKey);
        forall key | key in r.episodesByDate
          ensures r.episodesByDate[key] != []
        {
          assert Bucket(r.episodesByDate, key) == r.episodesByDate[key];
        }
      }
      assert forall p, e :: p in r.episodesByPodcast && e in r.episodesByPodcast[p] ==> e in r.episodes && e.podcastId == p by {
        BatchOfPodcast(outcome.items, podcastId, podcastName);
        assert r.episodes == s.episodes + batch;
        assert r.episodesByPodcast == s.episodesByPodcast[podcastId := batch];
      }
    }
  }

  lemma AllParseAppend(a: seq<Episode>, b: seq<Episode>, dateKey: string -> Option<string>)
    ensures AllParse(a + b, dateKey) <==> AllParse(a, dateKey) && AllParse(b, dateKey)
  {
    if AllParse(a + b, dateKey) {
      forall i | 0 <= i < |a| ensures dateKey(a[i].releaseDate).Some? {
        assert (a + b)[i] == a[i];
      }
      forall i | 0 <= i < |b| ensures dateKey(b[i].releaseDate).Some? {
        assert (a + b)[|a| + i] == b[i];
      }
    }
    if AllParse(a, dateKey) && AllParse(b, dateKey) {
      forall i | 0 <= i < |a + b| ensures dateKey((a + b)[i].releaseDate).Some? {
        if i >= |a| {
          assert (a + b)[i] == b[i - |a|];
        }
      }
    }
  }

  /** Every completed fetch keeps the store's invariant. */
  lemma FinishedKeepsInvariant(s: EpisodeState, podcastId: string, podcastName: string, outcome: FetchOutcome, dateKey: string -> Option<string>)
    requires IndexedWhileParsed(s, dateKey)
    ensures IndexedWhileParsed(Finished(s, podcastId, podcastName, outcome, dateKey), dateKey)
  {
    var r := Finished(s, podcastId, podcastName, outcome, dateKey);
    if AllParse(r.episodes, dateKey) {
      if outcome.Fetched? {
        AllParseAppend(s.episodes, TransformBatch(outcome.items, podcastId, podcastName), dateKey);
      }
      FinishedIndexed(s, podcastId, podcastName, outcome, dateKey);
    }
  }

  /**
   * A fetch that meets an unparsable date still lists its whole batch and replaces the podcast's bucket,
   * but reports the date error, resolves to nothing, and buckets only the episodes before that date.
   */
  lemma FinishedWithInvalidDate(s: EpisodeState, podcastId: string, podcastName: string, items: seq<EpisodeItem>, dateKey: string -> Option<string>)
    requires !AllParse(TransformBatch(items, podcastId, podcastName), dateKey)
    ensures var r := Finished(s, podcastId, podcastName, Fetched(items), dateKey);
      var batch := TransformBatch(items, podcastId, podcastName);
      var bucketed := ParsedPrefix(batch, dateKey);
      && r.episodes == s.episodes + batch
      && r.episodesByPodcast[podcastId] == batch
      && r.error == Some(INVALID_DATE_MESSAGE)
      && FetchResult(podcastId, podcastName, Fetched(items), dateKey) == []
      && |bucketed| < |batch| && bucketed == batch[..|bucketed|]
      && dateKey(batch[|bucketed|].releaseDate).None?
      && (forall key :: Bucket(r.episodesByDate, key) == Bucket(s.episodesByDate, key) + OnDate(bucketed, key, dateKey))
  {
    var batch := TransformBatch(items, podcastId, podcastName);
    ParsedPrefixShape(batch, dateKey);
    FinishedBuckets(s, podcastId, podcastName, items, dateKey);
  }

  /**
   * Fetching the same batch twice for a podcast lists its episodes twice, while the podcast's bucket holds
   * the batch once: there is no de-duplication by id.
   */
  lemma RefetchDuplicates(s: EpisodeState, podcastId: string, podcastName: string, items: seq<EpisodeItem>, dateKey: string -> Option<string>)
    ensures var batch := TransformBatch(items, podcastId, podcastName);
      var r := Finished(Started(Finished(Started(s), podcastId, podcastName, Fetched(items), dateKey)), podcastId, podcastName, Fetched(items), dateKey);
      && r.episodes == s.episodes + batch + batch
      && |r.episodes| == |s.episodes| + 2 * |items|
      && r.episodesByPodcast[podcastId] == batch
  {
  }

  /** The completions of a fan-out, in the given order. */
  function FinishAll(s: EpisodeState, selected: seq<Podcast>, outcomes: seq<FetchOutcome>, dateKey: string -> Option<string>): EpisodeState
    requires |outcomes| == |selected|
    decreases |selected|
  {
    if selected == [] then s
    else FinishAll(Finished(s, selected[0].id, selected[0].name, outcomes[0], dateKey), selected[1..], outcomes[1..], dateKey)
  }

  /**
   * `fetchEpisodesForSelectedPodcasts()`: clear, start one fetch per selected podcast (each runs up to its
   * `await` before any completes), then complete them in selection order.
   */
  function FetchedAll(s: EpisodeState, selected: seq<Podcast>, outcomes: seq<FetchOutcome>, dateKey: string -> Option<string>): EpisodeState
    requires |outcomes| == |selected|
  {
    var cleared := Cleared(s);
    FinishAll(if selected == [] then cleared else Started(cleared), selected, outcomes, dateKey)
  }

  /** The fetched batches of a fan-out, concatenated in completion order. */
  function Batches(selected: seq<Podcast>, outcomes: seq<FetchOutcome>): seq<Episode>
    requires |outcomes| == |selected|
    decreases |selected|
  {
    if selected == [] then []
    else
      (match outcomes[0]
       case Fetched(items) => TransformBatch(items, selected[0].id, selected[0].name)
       case FetchFailed(_) => [])
      + Batches(selected[1..], outcomes[1..])
  }

  /** The error message one completion leaves, if it leaves one. */
  function FailureOf(p: Podcast, outcome: FetchOutcome, dateKey: string -> Option<string>): Option<string>
  {
    match outcome
    case FetchFailed(err) => Some(MessageOf(err, FETCH_FAILED_MESSAGE))
    case Fetched(items) => if AllParse(TransformBatch(items, p.id, p.name), dateKey) then None else Some(INVALID_DATE_MESSAGE)
  }

  /** The message of the last failed completion, if any failed. */
  function LastFailure(selected: seq<Podcast>, outcomes: seq<FetchOutcome>, dateKey: string -> Option<string>): Option<string>
    requires |outcomes| == |selected|
    decreases |selected|
  {
    if selected == [] then None
    else match LastFailure(selected[1..], outcomes[1..], dateKey)
      case Some(m) => Some(m)
      case None => FailureOf(selected[0], outcomes[0], dateKey)
  }

  /** Completing a fan-out appends every fetched batch to the list, in completion order. */
  lemma {:induction false} FinishAllEpisodes(s: EpisodeState, selected: seq<Podcast>, outcomes: seq<FetchOutcome>, dateKey: string -> Option<string>)
    requires |outcomes| == |selected|
    ensures FinishAll(s, selected, outcomes, dateKey).episodes == s.episodes + Batches(selected, outcomes)
    decreases |selected|
  {
    if selected != [] {
      var t := Finished(s, selected[0].id, selected[0].name, outcomes[0], dateKey);
      assert FinishAll(s, selected, outcomes, dateKey) == FinishAll(t, selected[1..], outcomes[1..], dateKey);
      FinishAllEpisodes(t, selected[1..], outcomes[1..], dateKey);
    }
  }

  /**
   * Completing a fan-out leaves the message of the last failure, or the message from before when none
   * failed: a later success does not clear an earlier failure's message. The flag ends down.
   */
  lemma {:induction false} FinishAllError(s: EpisodeState, selected: seq<Podcast>, outcomes: seq<FetchOutcome>, dateKey: string -> Option<string>)
    requires |outcomes| == |selected|
    ensures var r := FinishAll(s, selected, outcomes, dateKey);
      var last := LastFailure(selected, outcomes, dateKey);
      && r.error == (if last.Some? then last else s.error)
      && (selected != [] ==> !r.isLoading)
    decreases |selected|
  {
    if selected != [] {
      var t := Finished(s, selected[0].id, selected[0].name, outcomes[0], dateKey);
      assert FinishAll(s, selected, outcomes, dateKey) == FinishAll(t, selected[1..], outcomes[1..], dateKey);
      FinishAllError(t, selected[1..], outcomes[1..], dateKey);
    }
  }

  /** Completing a fan-out keeps the store's invariant. */
  lemma {:induction false} FinishAllKeepsInvariant(s: EpisodeState, selected: seq<Podcast>, outcomes: seq<FetchOutcome>, dateKey: string -> Option<string>)
    requires |outcomes| == |selected|
    requires IndexedWhileParsed(s, dateKey)
    ensures IndexedWhileParsed(FinishAll(s, selected, outcomes, dateKey), dateKey)
    decreases |selected|
  {
    if selected != [] {
      var t := Finished(s, selected[0].id, selected[0].name, outcomes[0], dateKey);
      assert FinishAll(s, selected, outcomes, dateKey) == FinishAll(t, selected[1..], outcomes[1..], dateKey);
      FinishedKeepsInvariant(s, selected[0].id, selected[0].name, outcomes[0], dateKey);
      FinishAllKeepsInvariant(t, selected[1..], outcomes[1..], dateKey);
    }
  }

  /**
   * A podcast has a per-podcast bucket after the fan-out exactly when it had one or one of its fetches
   * returned items: a failed podcast contributes nothing.
   */
  lemma {:induction false} FinishAllPodcastKeys(s: EpisodeState, selected: seq<Podcast>, outcomes: seq<FetchOutcome>, dateKey: string -> Option<string>)
    requires |outcomes| == |selected|
    ensures forall p :: p in FinishAll(s, selected, outcomes, dateKey).episodesByPodcast <==>
      p in s.episodesByPodcast || exists i :: 0 <= i < |selected| && selected[i].id == p && outcomes[i].Fetched?
    decreases |selected|
  {
    if selected != [] {
      var t := Finished(s, selected[0].id, selected[0].name, outcomes[0], dateKey);
      FinishAllPodcastKeys(t, selected[1..], outcomes[1..], dateKey);
      forall p
        ensures p in FinishAll(s, selected, outcomes, dateKey).episodesByPodcast <==>
          p in s.episodesByPodcast || exists i :: 0 <= i < |selected| && selected[i].id == p && outcomes[i].Fetched?
      {
        if exists i :: 0 <= i < |selected| && selected[i].id == p && outcomes[i].Fetched? {
          var i :| 0 <= i < |selected| && selected[i].id == p && outcomes[i].Fetched?;
          if i > 0 {
            assert selected[1..][i - 1].id == p && outcomes[1..][i - 1].Fetched?;
          }
        }
        if exists j :: 0 <= j < |selected[1..]| && selected[1..][j].id == p && outcomes[1..][j].Fetched? {
          var j :| 0 <= j < |selected[1..]| && selected[1..][j].id == p && outcomes[1..][j].Fetched?;
          assert selected[j + 1].id == p && outcomes[j + 1].Fetched?;
        }
      }
    }
  }

  /**
   * After `fetchEpisodesForSelectedPodcasts` the list is exactly the fetched batches in order, the indexes
   * agree with it when every date parses, the message is that of the last failure (or none), and the flag
   * is down unless nothing was selected.
   */
  lemma FetchedAllEffect(s: EpisodeState, selected: seq<Podcast>, outcomes: seq<FetchOutcome>, dateKey: string -> Option<string>)
    requires |outcomes| == |selected|
    ensures var r := FetchedAll(s, selected, outcomes, dateKey);
      && r.episodes == Batches(selected, outcomes)
      && IndexedWhileParsed(r, dateKey)
      && (selected != [] ==> r.error == LastFailure(selected, outcomes, dateKey) && !r.isLoading)
      && (selected == [] ==> r == Cleared(s))
  {
    var cleared := Cleared(s);
    var start := if selected == [] then cleared else Started(cleared);
    assert Indexed(start, dateKey);
    FinishAllEpisodes(start, selected, outcomes, dateKey);
    FinishAllError(start, selected, outcomes, dateKey);
    FinishAllKeepsInvariant(start, selected, outcomes, dateKey);
  }

  /**
   * The bucketing loop of a successful fetch: each episode, in order, is appended to the bucket of its
   * day key, a new bucket being created for a key not seen before; an episode whose date has no key
   * ends the loop, as the throw out of `getDateKey` does.
   */
  method IndexByDate(byDate: map<string, seq<Episode>>, batch: seq<Episode>, dateKey: string -> Option<string>)
    returns (r: map<string, seq<Episode>>, completed: bool)
    ensures r == AddAll(byDate, batch, dateKey)
    ensures completed <==> AllParse(batch, dateKey)
  {
    r := byDate;
    completed := true;
    var i := 0;
    while i < |batch|
      invariant 0 <= i <= |batch|
      invariant AddAll(r, batch[i..], dateKey) == AddAll(byDate, batch, dateKey)
      invariant forall j :: 0 <= j < i ==> dateKey(batch[j].releaseDate).Some?
    {
      var episode := batch[i];
      var key := dateKey(episode.releaseDate);
      if key.None? {
        completed := false;
        return;
      }
      ghost var before := r;
      if key.value !in r {
        r := r[key.value := []];
      }
      r := r[key.value := r[key.value] + [episode]];
      assert r == AddToBucket(before, episode, key.value);
      assert batch[i..][1..] == batch[i + 1..];
      i := i + 1;
    }
    assert batch[i..] == [];
  }

  /** The store object. */
  class EpisodeStore {
    var episodes: seq<Episode>
    var episodesByDate: map<string, seq<Episode>>
    var episodesByPodcast: map<string, seq<Episode>>
    var isLoading: bool
    var error: Option<string>
    /** `getDateKey`: the platform's parse-then-UTC-day of a release date, `None` where it throws. */
    const dateKey: string -> Option<string>

    function State(): EpisodeState
      reads this
    {
      EpisodeState(episodes, episodesByDate, episodesByPodcast, isLoading, error)
    }

    ghost predicate Valid()
      reads this
    {
      IndexedWhileParsed(State(), dateKey)
    }

    constructor (dateKey: string -> Option<string>)
      ensures this.dateKey == dateKey
      ensures State() == Empty() && Valid()
    {
      this.dateKey := dateKey;
      episodes := [];
      episodesByDate := map[];
      episodesByPodcast := map[];
      isLoading := false;
      error := None;
    }

    /** The synchronous part of `fetchEpisodesForPodcast`, up to the `await`. */
    method StartFetch()
      requires Valid()
      modifies this
      ensures Valid()
      ensures State() == Started(old(State()))
    {
      isLoading := true;
      error := None;
    }

    /** The part of `fetchEpisodesForPodcast` after the `await`, given what the awaited call produced. */
    method FinishFetch(podcastId: string, podcastName: string, outcome: FetchOutcome) returns (result: seq<Episode>)
      requires Valid()
      modifies this
      ensures Valid()
      ensures State() == Finished(old(State()), podcastId, podcastName, outcome, dateKey)
      ensures result == FetchResult(podcastId, podcastName, outcome, dateKey)
    {
      ghost var target := Finished(State(), podcastId, podcastName, outcome, dateKey);
      FinishedKeepsInvariant(State(), podcastId, podcastName, outcome, dateKey);
      match outcome {
        case Fetched(items) =>
          var transformedEpisodes := TransformBatch(items, podcastId, podcastName);
          episodes := episodes + transformedEpisodes;
          episodesByPodcast := episodesByPodcast[podcastId := transformedEpisodes];
          var completed;
          episodesByDate, completed := IndexByDate(episodesByDate, transformedEpisodes, dateKey);
          if completed {
            result := transformedEpisodes;
          } else {
            error := Some(INVALID_DATE_MESSAGE);
            result := [];
          }
        case FetchFailed(err) =>
          error := Some(MessageOf(err, FETCH_FAILED_MESSAGE));
          result := [];
      }
      isLoading := false;
      assert State() == target;
    }

    /** `fetchEpisodesForPodcast(podcastId, podcastName)` with the awaited call's outcome. */
    method FetchEpisodesForPodcast(podcastId: string, podcastName: string, outcome: FetchOutcome) returns (result: seq<Episode>)
      requires Valid()
      modifies this
      ensures Valid()
      ensures State() == Finished(Started(old(State())), podcastId, podcastName, outcome, dateKey)
      ensures result == FetchResult(podcastId, podcastName, outcome, dateKey)
    {
      StartFetch();
      result := FinishFetch(podcastId, podcastName, outcome);
    }

    method ClearEpisodes()
      modifies this
      ensures Valid()
      ensures State() == Cleared(old(State()))
    {
      episodes := [];
      episodesByDate := map[];
      episodesByPodcast := map[];
    }

    /**
     * `fetchEpisodesForSelectedPodcasts()` with the selection and, per selected podcast, the outcome of its
     * fetch: every fetch starts before any finishes, and they finish in selection order.
     */
    method FetchEpisodesForSelectedPodcasts(selected: seq<Podcast>, outcomes: seq<FetchOutcome>)
      requires |outcomes| == |selected|
      modifies this
      ensures Valid()
      ensures State() == FetchedAll(old(State()), selected, outcomes, dateKey)
    {
      ClearEpisodes();
      ghost var cleared := State();
      var i := 0;
      while i < |selected|
        invariant 0 <= i <= |selected|
        invariant Valid()
        invariant State() == if i == 0 then cleared else Started(cleared)
      {
        StartFetch();
        i := i + 1;
      }
      ghost var started := State();
      i := 0;
      while i < |selected|
        invariant 0 <= i <= |selected|
        invariant Valid()
        invariant FinishAll(State(), selected[i..], outcomes[i..], dateKey) == FinishAll(started, selected, outcomes, dateKey)
      {
        assert selected[i..][1..] == selected[i + 1..] && outcomes[i..][1..] == outcomes[i + 1..];
        var _ := FinishFetch(selected[i].id, selected[i].name, outcomes[i]);
        i := i + 1;
      }
    }

    /** `getEpisodesByDate(date)` */
    function GetEpisodesByDate(date: string): (r: seq<Episode>)
      reads this
      ensures date !in episodesByDate ==> r == []
      ensures Valid() && AllParse(episodes, dateKey) ==> r == OnDate(episodes, date, dateKey)
    {
      if date in episodesByDate then episodesByDate[date] else []
    }

    /** `getEpisodesByPodcast(podcastId)` */
    function GetEpisodesByPodcast(podcastId: string): (r: seq<Episode>)
      reads this
      ensures podcastId !in episodesByPodcast ==> r == []
      ensures Valid() && AllParse(episodes, dateKey) ==> forall e :: e in r ==> e in episodes && e.podcastId == podcastId
    {
      if podcastId in episodesByPodcast then episodesByPodcast[podcastId] else []
    }

    /** `datesWithEpisodes`: the day keys that have a bucket. */
    function DatesWithEpisodes(): (r: set<string>)
      reads this
      ensures r == episodesByDate.Keys
      ensures Valid() && AllParse(episodes, dateKey) ==>
        forall d :: d in r <==> exists e :: e in episodes && dateKey(e.releaseDate) == Some(d)
    {
      IndexedDates(State(), dateKey);
      episodesByDate.Keys
    }
  }
}
