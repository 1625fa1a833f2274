/**
 * The calendar store (src/stores/calendarStore.ts): the `calendarEvents` derivation, which first
 * reconciles the colour allocator with the current selection and then projects the selected podcasts'
 * episodes to calendar events, and the lookup of an episode by id.
 */
module Calendar {
  import opened Common
  import opened AppTypes
  import opened Colors
  import Episodes

  /** The ids of the selected podcasts, in selection order. */
  function PodcastIds(selected: seq<Podcast>): seq<PodcastId>
  {
    seq(|selected|, i requires 0 <= i < |selected| => selected[i].id)
  }

  lemma PodcastIdsElements(selected: seq<Podcast>)
    ensures Elements(PodcastIds(selected)) == SelectedIds(selected)
  {
    var ids := PodcastIds(selected);
    forall id | id in SelectedIds(selected)
      ensures id in Elements(ids)
    {
      var i :| 0 <= i < |selected| && selected[i].id == id;
      assert ids[i] == id;
    }
  }

  /** `getPodcastColor` called for each id in turn, keeping only the state it leaves. */
  function AssignAll(s: ColorState, ids: seq<PodcastId>): ColorState
    decreases |ids|
  {
    if ids == [] then s else AssignAll(GetColor(s, ids[0]).1, ids[1..])
  }

  /** Asking for colours one podcast after another keeps the partition. */
  lemma {:induction false} AssignAllPreserves(s: ColorState, ids: seq<PodcastId>)
    requires Partitioned(s)
    ensures Partitioned(AssignAll(s, ids))
    decreases |ids|
  {
    if ids != [] {
      GetColorPreserves(s, ids[0]);
      AssignAllPreserves(GetColor(s, ids[0]).1, ids[1..]);
    }
  }

  /**
   * Assigning never takes a colour away or changes one, and only the ids asked about gain one. With an empty
   * pool nothing happens at all; so afterwards each id asked about either holds a colour or found the pool
   * empty.
   */
  lemma {:induction false} AssignAllKeeps(s: ColorState, ids: seq<PodcastId>)
    ensures var r := AssignAll(s, ids);
      && (forall id :: id in s.podcastColors ==> id in r.podcastColors && r.podcastColors[id] == s.podcastColors[id])
      && r.podcastColors.Keys <= s.podcastColors.Keys + Elements(ids)
      && (s.available == [] ==> r == s)
      && (forall id :: id in ids ==> id in r.podcastColors || r.available == [])
    decreases |ids|
  {
    if ids != [] {
      var t := GetColor(s, ids[0]).1;
      AssignAllKeeps(t, ids[1..]);
      assert Elements(ids) == {ids[0]} + Elements(ids[1..]);
    }
  }

  /**
   * The counting part of the allocator invariant: the key order lists each assigned podcast once, and it
   * is as long as the palette is, less the free pool.
   */
  ghost predicate Counted(s: ColorState)
  {
    && NoDups(s.order)
    && s.podcastColors.Keys == Elements(s.order)
    && |s.available| + |s.order| == |DISTINCT_COLORS|
  }

  lemma PartitionedCounted(s: ColorState)
    requires Partitioned(s)
    ensures Counted(s)
  {
    assert s.podcastColors.Keys == Elements(s.order);
  }

  lemma GetColorCounted(s: ColorState, id: PodcastId)
    requires Counted(s)
    ensures Counted(GetColor(s, id).1)
  {
    if id !in s.podcastColors && s.available != [] {
      var r := GetColor(s, id).1;
      assert r.order == s.order + [id];
      assert Elements(r.order) == Elements(s.order) + {id};
    }
  }

  /** The number of assigned podcasts is the length of the key order, never more than the palette. */
  lemma AssignedCount(s: ColorState)
    requires Counted(s)
    ensures |s.podcastColors.Keys| == |s.order| <= |DISTINCT_COLORS|
  {
    NoDupsCardinality(s.order);
  }

  /**
   * When the podcasts already holding a colour together with the ones asked about fit in the palette, every
   * podcast asked about ends up with a colour.
   */
  lemma {:induction false} AssignAllCovers(s: ColorState, ids: seq<PodcastId>)
    requires Counted(s)
    requires |s.podcastColors.Keys + Elements(ids)| <= |DISTINCT_COLORS|
    ensures forall id :: id in ids ==> id in AssignAll(s, ids).podcastColors
    decreases |ids|
  {
    if ids != [] {
      var id0, rest := ids[0], ids[1..];
      var before := s.podcastColors.Keys + Elements(ids);
      assert Elements(ids) == {id0} + Elements(rest);
      assert id0 in s.podcastColors || s.available != [] by {
        if id0 !in s.podcastColors && s.available == [] {
          AssignedCount(s);
          SubsetCardinality(s.podcastColors.Keys + {id0}, before);
        }
      }
      var t := GetColor(s, id0).1;
      assert id0 in t.podcastColors;
      assert |t.podcastColors.Keys + Elements(rest)| <= |DISTINCT_COLORS| by {
        assert t.podcastColors.Keys + Elements(rest) <= before;
        SubsetCardinality(t.podcastColors.Keys + Elements(rest), before);
      }
      GetColorCounted(s, id0);
      AssignAllCovers(t, rest);
      AssignAllKeeps(t, rest);
      assert AssignAll(s, ids) == AssignAll(t, rest);
    }
  }

  /**
   * The colour reconciliation of `calendarEvents`: release the colours of deselected podcasts, then ask for
   * the colour of every selected podcast in selection order.
   */
  function Reconcile(s: ColorState, selected: seq<Podcast>): ColorState
  {
    AssignAll(UpdateAssignments(s, SelectedIds(selected)), PodcastIds(selected))
  }

  /**
   * Asking for the colours of a set of podcasts that fits in the palette, starting from a state whose
   * assigned podcasts are all among them, leaves exactly that set assigned.
   */
  lemma AssignAllExact(u: ColorState, ids: seq<PodcastId>, sel: set<PodcastId>)
    requires Counted(u)
    requires u.podcastColors.Keys <= sel && Elements(ids) == sel && |sel| <= |DISTINCT_COLORS|
    ensures AssignAll(u, ids).podcastColors.Keys == sel
  {
    assert u.podcastColors.Keys + Elements(ids) == sel;
    AssignAllCovers(u, ids);
    AssignAllKeeps(u, ids);
    var r := AssignAll(u, ids);
    forall id | id in sel
      ensures id in r.podcastColors
    {
      assert id in Elements(ids);
    }
  }

  /**
   * With at most as many selected podcasts as palette colours, after reconciliation exactly the selected
   * podcasts hold a colour, and a podcast that stayed selected keeps its colour.
   */
  lemma ReconcileAssignsSelected(s: ColorState, selected: seq<Podcast>)
    requires Partitioned(s)
    requires |SelectedIds(selected)| <= |DISTINCT_COLORS|
    ensures var r := Reconcile(s, selected);
      && r.podcastColors.Keys == SelectedIds(selected)
      && (forall id :: id in s.podcastColors && id in SelectedIds(selected) ==> r.podcastColors[id] == s.podcastColors[id])
  {
    var sel := SelectedIds(selected);
    var ids := PodcastIds(selected);
    var u := UpdateAssignments(s, sel);
    UpdateAssignmentsEffect(s, sel);
    PodcastIdsElements(selected);
    PartitionedCounted(u);
    AssignAllExact(u, ids, sel);
    AssignAllKeeps(u, ids);
  }

  /** After reconciliation no two podcasts share a colour, and every colour shown comes from the palette. */
  lemma ReconcileDistinct(s: ColorState, selected: seq<Podcast>)
    requires Partitioned(s)
    ensures var r := Reconcile(s, selected);
      && Partitioned(r)
      && (forall a, b :: a in r.podcastColors && b in r.podcastColors && a != b ==> r.podcastColors[a] != r.podcastColors[b])
      && (forall id :: GetColor(r, id).0 in DISTINCT_COLORS)
  {
    UpdateAssignmentsEffect(s, SelectedIds(selected));
    var r := Reconcile(s, selected);
    AssignAllPreserves(UpdateAssignments(s, SelectedIds(selected)), PodcastIds(selected));
    forall id
      ensures GetColor(r, id).0 in DISTINCT_COLORS
    {
      GetColorPreserves(r, id);
    }
  }

  /**
   * With more selected podcasts than palette colours, some selected podcast holds no colour and is shown in
   * the first palette colour, which another podcast holds as well.
   */
  lemma ReconcileOverflow(s: ColorState, selected: seq<Podcast>)
    requires Partitioned(s)
    requires |SelectedIds(selected)| > |DISTINCT_COLORS|
    ensures var r := Reconcile(s, selected);
      exists id :: id in SelectedIds(selected) && id !in r.podcastColors && GetColor(r, id).0 == DISTINCT_COLORS[0]
    ensures var r := Reconcile(s, selected);
      exists other :: other in r.podcastColors && r.podcastColors[other] == DISTINCT_COLORS[0]
  {
    var sel := SelectedIds(selected);
    var r := Reconcile(s, selected);
    ReleaseDeselectedPreserves(s, s.order, sel);
    AssignAllPreserves(UpdateAssignments(s, sel), PodcastIds(selected));
    PartitionedCounted(r);
    AssignedCount(r);
    if sel <= r.podcastColors.Keys {
      SubsetCardinality(sel, r.podcastColors.Keys);
      assert false;
    }
    var id :| id in sel && id !in r.podcastColors;
    PodcastIdsElements(selected);
    AssignAllKeeps(UpdateAssignments(s, sel), PodcastIds(selected));
    assert r.available == [];
    assert DISTINCT_COLORS[0] in r.podcastColors.Values;
    var other :| other in r.podcastColors && r.podcastColors[other] == DISTINCT_COLORS[0];
  }

  /** After reconciliation, asking for a selected podcast's colour changes nothing. */
  lemma ReconciledIsSettled(s: ColorState, selected: seq<Podcast>, id: PodcastId)
    requires id in SelectedIds(selected)
    ensures var r := Reconcile(s, selected); GetColor(r, id).1 == r
  {
    PodcastIdsElements(selected);
    AssignAllKeeps(UpdateAssignments(s, SelectedIds(selected)), PodcastIds(selected));
  }

  /** The event of one episode in the store's projection, given its podcast's colour. */
  function StoreEvent(ep: Episode, color: Color, parseDate: string -> JsDate): (ev: CalendarEvent)
    ensures ev.id == ep.id && ev.title == ep.podcastName + ": " + ep.name
    ensures ev.backgroundColor == ev.borderColor == color
    ensures ev.extendedProps.episode == Some(ep)
    ensures ev.extendedProps.podcastId == ep.podcastId && ev.extendedProps.podcastName == ep.podcastName
    ensures ev.start == parseDate(ep.releaseDate)
    ensures ev.extendedProps.description == None && ev.extendedProps.duration == None && ev.extendedProps.audioUrl == None
  {
    CalendarEvent(ep.id, ep.podcastName + ": " + ep.name, parseDate(ep.releaseDate), color, color,
      EventProps(ep.podcastId, ep.podcastName, None, None, None, Some(ep)))
  }

  /** `calendarEvents` as a value: the events of the selected podcasts' episodes, after reconciliation. */
  function StoreEvents(episodes: seq<Episode>, selected: seq<Podcast>, s: ColorState, parseDate: string -> JsDate): seq<CalendarEvent>
  {
    if selected == [] then []
    else
      var shown := EpisodesOf(episodes, SelectedIds(selected));
      var r := Reconcile(s, selected);
      seq(|shown|, i requires 0 <= i < |shown| => StoreEvent(shown[i], GetColor(r, shown[i].podcastId).0, parseDate))
  }

  /**
   * One event per episode of a selected podcast, in episode order, each coloured with the colour its podcast
   * holds after reconciliation; no event for any other episode.
   */
  lemma StoreEventsShape(episodes: seq<Episode>, selected: seq<Podcast>, s: ColorState, parseDate: string -> JsDate)
    requires Partitioned(s)
    requires selected != []
    ensures var evs := StoreEvents(episodes, selected, s, parseDate);
      var shown := EpisodesOf(episodes, SelectedIds(selected));
      var r := Reconcile(s, selected);
      && |evs| == |shown|
      && (forall i :: 0 <= i < |evs| ==>
            && shown[i] in episodes && shown[i].podcastId in SelectedIds(selected)
            && evs[i].id == shown[i].id
            && evs[i].title == shown[i].podcastName + ": " + shown[i].name
            && evs[i].backgroundColor == evs[i].borderColor
            && (|SelectedIds(selected)| <= |DISTINCT_COLORS| ==>
                  shown[i].podcastId in r.podcastColors && evs[i].backgroundColor == r.podcastColors[shown[i].podcastId]))
  {
    var sel := SelectedIds(selected);
    var shown := EpisodesOf(episodes, sel);
    var r := Reconcile(s, selected);
    var evs := StoreEvents(episodes, selected, s, parseDate);
    if |sel| <= |DISTINCT_COLORS| {
      ReconcileAssignsSelected(s, selected);
    }
    forall i | 0 <= i < |evs|
      ensures shown[i] in episodes && shown[i].podcastId in sel
      ensures evs[i] == StoreEvent(shown[i], GetColor(r, shown[i].podcastId).0, parseDate)
      ensures |sel| <= |DISTINCT_COLORS| ==>
        shown[i].podcastId in r.podcastColors && GetColor(r, shown[i].podcastId).0 == r.podcastColors[shown[i].podcastId]
    {
      assert shown[i] in shown;
    }
  }

  /** `i` is the position of the first episode with the given id. */
  predicate FirstWithId(episodes: seq<Episode>, episodeId: string, i: int)
  {
    0 <= i < |episodes| && episodes[i].id == episodeId && forall j :: 0 <= j < i ==> episodes[j].id != episodeId
  }

  /** The first episode with the given id: `Array.prototype.find`. */
  function FindById(episodes: seq<Episode>, episodeId: string): (r: Option<Episode>)
    ensures r.None? <==> forall i :: 0 <= i < |episodes| ==> episodes[i].id != episodeId
    ensures r.Some? ==> r.value.id == episodeId
    ensures r.Some? ==> exists i :: FirstWithId(episodes, episodeId, i) && episodes[i] == r.value
  {
    if episodes == [] then None
    else if episodes[0].id == episodeId then Some(episodes[0])
    else FindById(episodes[1..], episodeId)
  }

  class CalendarStore {
    const colorStore: ColorStore
    const episodeStore: Episodes.EpisodeStore
    /** `new Date(releaseDate)` */
    const parseDate: string -> JsDate

    constructor (colorStore: ColorStore, episodeStore: Episodes.EpisodeStore, parseDate: string -> JsDate)
      ensures this.colorStore == colorStore && this.episodeStore == episodeStore && this.parseDate == parseDate
    {
      this.colorStore := colorStore;
      this.episodeStore := episodeStore;
      this.parseDate := parseDate;
    }

    /** The `forEach` of `calendarEvents` that asks for each selected podcast's colour, in selection order. */
    method AssignColors(ids: seq<PodcastId>)
      requires colorStore.Valid()
      modifies colorStore
      ensures colorStore.Valid()
      ensures colorStore.State() == AssignAll(old(colorStore.State()), ids)
    {
      var i := 0;
      while i < |ids|
        invariant 0 <= i <= |ids|
        invariant colorStore.Valid()
        invariant AssignAll(colorStore.State(), ids[i..]) == AssignAll(old(colorStore.State()), ids)
      {
        assert ids[i..][1..] == ids[i + 1..];
        var _ := colorStore.GetPodcastColor(ids[i]);
        i := i + 1;
      }
      assert ids[i..] == [];
    }

    /**
     * The `map` of `calendarEvents`: one event per episode, coloured by `getPodcastColor`, which changes
     * nothing here because every podcast asked about is already settled.
     */
    method ProjectEpisodes(episodes: seq<Episode>, ghost r: ColorState) returns (events: seq<CalendarEvent>)
      requires colorStore.Valid() && colorStore.State() == r
      requires forall e :: e in episodes ==> GetColor(r, e.podcastId).1 == r
      modifies colorStore
      ensures colorStore.Valid() && colorStore.State() == r
      ensures |events| == |episodes|
      ensures forall k :: 0 <= k < |episodes| ==> events[k] == StoreEvent(episodes[k], GetColor(r, episodes[k].podcastId).0, parseDate)
    {
      events := [];
      var j := 0;
      while j < |episodes|
        invariant 0 <= j <= |episodes|
        invariant colorStore.Valid() && colorStore.State() == r
        invariant |events| == j
        invariant forall k :: 0 <= k < j ==> events[k] == StoreEvent(episodes[k], GetColor(r, episodes[k].podcastId).0, parseDate)
      {
        var episode := episodes[j];
        assert episode in episodes;
        var color := colorStore.GetPodcastColor(episode.podcastId);
        events := events + [StoreEvent(episode, color, parseDate)];
        j := j + 1;
      }
    }

    /**
     * `calendarEvents` for the given selection: an empty selection yields no events and leaves the colours
     * alone; otherwise the colours are reconciled and each selected episode projected.
     */
    method CalendarEvents(selected: seq<Podcast>) returns (events: seq<CalendarEvent>)
      requires colorStore.Valid()
      modifies colorStore
      ensures colorStore.Valid()
      ensures selected == [] ==> events == [] && colorStore.State() == old(colorStore.State())
      ensures selected != [] ==> colorStore.State() == Reconcile(old(colorStore.State()), selected)
      ensures events == StoreEvents(episodeStore.episodes, selected, old(colorStore.State()), parseDate)
    {
      if selected == [] {
        return [];
      }
      var currentlySelectedIds := set p | p in selected :: p.id;
      assert currentlySelectedIds == SelectedIds(selected);
      colorStore.UpdateColorAssignments(currentlySelectedIds);
      AssignColors(PodcastIds(selected));
      ghost var r := colorStore.State();
      var filteredEpisodes := EpisodesOf(episodeStore.episodes, currentlySelectedIds);
      forall e | e in filteredEpisodes
        ensures GetColor(r, e.podcastId).1 == r
      {
        ReconciledIsSettled(old(colorStore.State()), selected, e.podcastId);
      }
      events := ProjectEpisodes(filteredEpisodes, r);
    }

    /** `findEpisodeById(episodeId)` */
    function FindEpisodeById(episodeId: string): Option<Episode>
      reads episodeStore
    {
      FindById(episodeStore.episodes, episodeId)
    }
  }
}
