/**
 * The colour allocator (src/stores/colorStore.ts): a pool of free palette colours and a map from podcast
 * id to the colour it holds.
 *
 * The store keeps the pool in a JavaScript `Set` and the assignments in a `Map`; both iterate in insertion
 * order, and that order decides which colour is handed out next and where a released colour goes. The
 * model keeps the pool as a duplicate-free sequence and the map as a Dafny map together with the
 * sequence of its keys in insertion order.
 */
module Colors {
  import opened Common

  type PodcastId = string
  type Color = string

  /** The palette, in its declared order. */
  const DISTINCT_COLORS: seq<Color> := ["#0B4B30", "#0054A3", "#392083", "#5F3800", "#A20769"]

  /**
   * The allocator's state: the free pool (`availableColors`), the assignments (`selectedPodcastColors`)
   * and the Map's key order.
   */
  datatype ColorState = ColorState(available: seq<Color>, podcastColors: map<PodcastId, Color>, order: seq<PodcastId>)

  /**
   * The allocator invariant: the free pool and the assigned colours partition the palette, no two podcasts
   * hold the same colour, and `order` lists each assigned id exactly once.
   */
  ghost predicate Partitioned(s: ColorState)
  {
    && NoDups(s.available)
    && NoDups(s.order)
    && (forall id :: id in s.podcastColors <==> id in s.order)
    && (forall c :: c in s.available ==> c in DISTINCT_COLORS)
    && (forall id :: id in s.podcastColors ==> s.podcastColors[id] in DISTINCT_COLORS && s.podcastColors[id] !in s.available)
    && (forall a, b :: a in s.podcastColors && b in s.podcastColors && a != b ==> s.podcastColors[a] != s.podcastColors[b])
    && (forall c :: c in DISTINCT_COLORS ==> c in s.available || c in s.podcastColors.Values)
    && |s.available| + |s.order| == |DISTINCT_COLORS|
  }

  /** The state at start-up and after `resetPodcastColors`: the whole palette free, in palette order. */
  function Initial(): (s: ColorState)
    ensures Partitioned(s)
    ensures s.podcastColors == map[]
  {
    ColorState(DISTINCT_COLORS, map[], [])
  }

  /** `ids` without the members of `drop`, in order. */
  function Without(ids: seq<PodcastId>, drop: set<PodcastId>): (r: seq<PodcastId>)
    ensures forall x :: x in r <==> x in ids && x !in drop
    ensures NoDups(ids) ==> NoDups(r)
  {
    if ids == [] then []
    else (if ids[0] in drop then [] else [ids[0]]) + Without(ids[1..], drop)
  }

  /** Dropping one id that occurs once shortens the sequence by one. */
  lemma {:induction false} WithoutOne(ids: seq<PodcastId>, id: PodcastId)
    requires NoDups(ids) && id in ids
    ensures |Without(ids, {id})| == |ids| - 1
  {
    if ids[0] != id {
      WithoutOne(ids[1..], id);
    } else {
      WithoutNone(ids[1..], {id});
    }
  }

  /** Dropping ids that do not occur changes nothing. */
  lemma {:induction false} WithoutNone(ids: seq<PodcastId>, drop: set<PodcastId>)
    requires forall x :: x in ids ==> x !in drop
    ensures Without(ids, drop) == ids
  {
    if ids != [] {
      WithoutNone(ids[1..], drop);
      assert ids == [ids[0]] + ids[1..];
    }
  }

  /** Dropping in two rounds is dropping the union once. */
  lemma {:induction false} WithoutTwice(ids: seq<PodcastId>, a: set<PodcastId>, b: set<PodcastId>)
    ensures Without(Without(ids, a), b) == Without(ids, a + b)
  {
    if ids != [] {
      var h, t := ids[0], ids[1..];
      WithoutTwice(t, a, b);
      var w := Without(ids, a);
      if h in a {
        assert w == Without(t, a);
      } else {
        assert w == [h] + Without(t, a);
        assert w[0] == h && w[1..] == Without(t, a);
      }
    }
  }

  /**
   * `getPodcastColor(podcastId)`: the podcast's colour if it has one; otherwise the first free colour in
   * pool order, which leaves the pool and is recorded for the podcast; with an empty pool, the first
   * palette colour, recording nothing.
   */
  function GetColor(s: ColorState, id: PodcastId): (r: (Color, ColorState))
    ensures id in s.podcastColors ==> r == (s.podcastColors[id], s)
    ensures id !in s.podcastColors && s.available != [] ==>
      && r.0 == s.available[0]
      && r.1.available == s.available[1..]
      && r.1.podcastColors == s.podcastColors[id := r.0]
      && r.1.order == s.order + [id]
    ensures id !in s.podcastColors && s.available == [] ==> r == (DISTINCT_COLORS[0], s)
  {
    if id in s.podcastColors then
      (s.podcastColors[id], s)
    else if |s.available| > 0 then
      var c := s.available[0];
      (c, ColorState(s.available[1..], s.podcastColors[id := c], s.order + [id]))
    else
      (DISTINCT_COLORS[0], s)
  }

  /** The partition survives a colour request, and the colour returned is a palette colour. */
  lemma GetColorPreserves(s: ColorState, id: PodcastId)
    requires Partitioned(s)
    ensures Partitioned(GetColor(s, id).1) && GetColor(s, id).0 in DISTINCT_COLORS
  {
    if id !in s.podcastColors && s.available != [] {
      var r := GetColor(s, id).1;
      var c := s.available[0];
      assert s.available == [c] + r.available;
      forall d | d in DISTINCT_COLORS
        ensures d in r.available || d in r.podcastColors.Values
      {
        if d == c {
          assert r.podcastColors[id] == d;
        } else if d !in s.available {
          var x :| x in s.podcastColors && s.podcastColors[x] == d;
          assert r.podcastColors[x] == d;
        }
      }
    }
  }

  /** Asking twice for the same podcast's colour gives the same colour, and the second call changes nothing. */
  lemma GetColorIdempotent(s: ColorState, id: PodcastId)
    ensures GetColor(GetColor(s, id).1, id) == (GetColor(s, id).0, GetColor(s, id).1)
  {
  }

  /**
   * `releasePodcastColor(podcastId)`: nothing for an unassigned id; otherwise the colour goes back into the
   * pool (a `Set.add`, which appends unless already present) and the mapping is deleted.
   */
  function Release(s: ColorState, id: PodcastId): (r: ColorState)
    ensures id !in s.podcastColors ==> r == s
    ensures r.podcastColors == s.podcastColors - {id}
    ensures id in s.podcastColors ==> r.order == Without(s.order, {id})
    ensures id in s.podcastColors && s.podcastColors[id] !in s.available ==> r.available == s.available + [s.podcastColors[id]]
  {
    if id in s.podcastColors then
      var c := s.podcastColors[id];
      ColorState(if c in s.available then s.available else s.available + [c], s.podcastColors - {id}, Without(s.order, {id}))
    else
      s
  }

  /** The partition survives a release. */
  lemma ReleasePreserves(s: ColorState, id: PodcastId)
    requires Partitioned(s)
    ensures Partitioned(Release(s, id))
  {
    if id in s.podcastColors {
      var r := Release(s, id);
      var c := s.podcastColors[id];
      assert r.available == s.available + [c];
      WithoutOne(s.order, id);
      forall d | d in DISTINCT_COLORS
        ensures d in r.available || d in r.podcastColors.Values
      {
        if d !in s.available && d != c {
          var x :| x in s.podcastColors && s.podcastColors[x] == d;
          assert x != id;
          assert r.podcastColors[x] == d;
        }
      }
    }
  }

  /** The colours held by the ids of `ids` that are not selected, in the order of `ids`. */
  function Freed(ids: seq<PodcastId>, podcastColors: map<PodcastId, Color>, selected: set<PodcastId>): seq<Color>
  {
    if ids == [] then []
    else (if ids[0] !in selected && ids[0] in podcastColors then [podcastColors[ids[0]]] else [])
         + Freed(ids[1..], podcastColors, selected)
  }

  /** `Freed` only looks at the ids it is given. */
  lemma {:induction false} FreedFrame(ids: seq<PodcastId>, podcastColors: map<PodcastId, Color>, selected: set<PodcastId>, x: PodcastId)
    requires x !in ids
    ensures Freed(ids, podcastColors - {x}, selected) == Freed(ids, podcastColors, selected)
  {
    if ids != [] {
      FreedFrame(ids[1..], podcastColors, selected, x);
    }
  }

  /** The ids of `ids` that are not selected. */
  function Deselected(ids: seq<PodcastId>, selected: set<PodcastId>): set<PodcastId>
  {
    set x | x in ids && x !in selected
  }

  /** Walking `ids` in order and releasing each one that is not selected: the loop of `updateColorAssignments`. */
  function ReleaseDeselected(s: ColorState, ids: seq<PodcastId>, selected: set<PodcastId>): ColorState
    decreases |ids|
  {
    if ids == [] then s
    else ReleaseDeselected(if ids[0] in selected then s else Release(s, ids[0]), ids[1..], selected)
  }

  /** The release walk keeps the partition. */
  lemma {:induction false} ReleaseDeselectedPreserves(s: ColorState, ids: seq<PodcastId>, selected: set<PodcastId>)
    requires Partitioned(s)
    ensures Partitioned(ReleaseDeselected(s, ids, selected))
    decreases |ids|
  {
    if ids != [] {
      var t := if ids[0] in selected then s else Release(s, ids[0]);
      if ids[0] !in selected {
        ReleasePreserves(s, ids[0]);
      }
      ReleaseDeselectedPreserves(t, ids[1..], selected);
    }
  }

  /** `updateColorAssignments(currentlySelectedIds)`: release every podcast no longer selected, in Map order. */
  function UpdateAssignments(s: ColorState, selected: set<PodcastId>): ColorState
  {
    ReleaseDeselected(s, s.order, selected)
  }

  /** The walk over `ids` from position `i` is one step followed by the walk from `i + 1`. */
  lemma WalkStep(s: ColorState, ids: seq<PodcastId>, i: nat, selected: set<PodcastId>)
    requires i < |ids|
    ensures ReleaseDeselected(s, ids[i..], selected)
      == ReleaseDeselected(if ids[i] in selected then s else Release(s, ids[i]), ids[i + 1..], selected)
  {
    assert ids[i..][1..] == ids[i + 1..];
  }

  /** The release walk deletes exactly the mappings of the deselected ids. */
  lemma {:induction false} ReleaseDeselectedMap(s: ColorState, ids: seq<PodcastId>, selected: set<PodcastId>)
    requires NoDups(ids)
    requires forall x :: x in ids ==> x in s.podcastColors
    ensures ReleaseDeselected(s, ids, selected).podcastColors == s.podcastColors - Deselected(ids, selected)
    decreases |ids|
  {
    if ids == [] {
      assert s.podcastColors - Deselected(ids, selected) == s.podcastColors;
    } else {
      var id, rest := ids[0], ids[1..];
      assert id !in rest;
      var t := if id in selected then s else Release(s, id);
      assert ReleaseDeselected(s, ids, selected) == ReleaseDeselected(t, rest, selected);
      ReleaseDeselectedMap(t, rest, selected);
      if id in selected {
        assert Deselected(ids, selected) == Deselected(rest, selected);
      } else {
        assert Deselected(ids, selected) == {id} + Deselected(rest, selected);
      }
    }
  }

  /** The release walk removes exactly the deselected ids from the key order. */
  lemma {:induction false} ReleaseDeselectedOrder(s: ColorState, ids: seq<PodcastId>, selected: set<PodcastId>)
    requires NoDups(ids)
    requires forall x :: x in ids ==> x in s.podcastColors
    ensures ReleaseDeselected(s, ids, selected).order == Without(s.order, Deselected(ids, selected))
    decreases |ids|
  {
    if ids == [] {
      assert Deselected(ids, selected) == {};
      WithoutNone(s.order, {});
    } else {
      var id, rest := ids[0], ids[1..];
      assert id !in rest;
      var t := if id in selected then s else Release(s, id);
      assert ReleaseDeselected(s, ids, selected) == ReleaseDeselected(t, rest, selected);
      ReleaseDeselectedOrder(t, rest, selected);
      if id in selected {
        assert Deselected(ids, selected) == Deselected(rest, selected);
      } else {
        assert Deselected(ids, selected) == {id} + Deselected(rest, selected);
        WithoutTwice(s.order, {id}, Deselected(rest, selected));
      }
    }
  }

  /** The colours held by `ids` are distinct and none of them is in the pool. */
  ghost predicate HeldApart(s: ColorState, ids: seq<PodcastId>)
  {
    && NoDups(ids)
    && (forall x :: x in ids ==> x in s.podcastColors && s.podcastColors[x] !in s.available)
    && (forall x, y :: x in ids && y in ids && x != y ==> s.podcastColors[x] != s.podcastColors[y])
  }

  /** What `HeldApart` says of a sequence it says of its tail. */
  lemma HeldApartTail(s: ColorState, ids: seq<PodcastId>)
    requires HeldApart(s, ids) && ids != []
    ensures HeldApart(s, ids[1..])
  {
    assert forall x :: x in ids[1..] ==> x in ids;
  }

  /** Releasing the first id of a sequence whose colours are held apart keeps the rest held apart. */
  lemma HeldApartAfterRelease(s: ColorState, ids: seq<PodcastId>)
    requires HeldApart(s, ids) && ids != []
    ensures Release(s, ids[0]).available == s.available + [s.podcastColors[ids[0]]]
    ensures Release(s, ids[0]).podcastColors == s.podcastColors - {ids[0]}
    ensures HeldApart(Release(s, ids[0]), ids[1..])
  {
    var id, rest := ids[0], ids[1..];
    var t := Release(s, id);
    assert forall x :: x in rest ==> x in ids && x != id;
    forall x | x in rest
      ensures x in t.podcastColors && t.podcastColors[x] !in t.available
    {
      assert t.podcastColors[x] == s.podcastColors[x] != s.podcastColors[id];
    }
  }

  /** A selected id is passed over and frees nothing, so the pool after the walk is decided by the rest. */
  lemma PoolStepKept(s: ColorState, ids: seq<PodcastId>, selected: set<PodcastId>)
    requires ids != [] && ids[0] in selected
    requires ReleaseDeselected(s, ids[1..], selected).available == s.available + Freed(ids[1..], s.podcastColors, selected)
    ensures ReleaseDeselected(s, ids, selected).available == s.available + Freed(ids, s.podcastColors, selected)
  {
    assert ReleaseDeselected(s, ids, selected) == ReleaseDeselected(s, ids[1..], selected);
    assert Freed(ids, s.podcastColors, selected) == Freed(ids[1..], s.podcastColors, selected);
  }

  /**
   * A deselected id whose colour is not pooled is released and its colour appended, ahead of the colours
   * the rest of the walk frees.
   */
  lemma PoolStepReleased(s: ColorState, ids: seq<PodcastId>, selected: set<PodcastId>)
    requires ids != [] && ids[0] !in selected && ids[0] in s.podcastColors && ids[0] !in ids[1..]
    requires s.podcastColors[ids[0]] !in s.available
    requires var t := Release(s, ids[0]);
      ReleaseDeselected(t, ids[1..], selected).available == t.available + Freed(ids[1..], t.podcastColors, selected)
    ensures ReleaseDeselected(s, ids, selected).available == s.available + Freed(ids, s.podcastColors, selected)
  {
    var id, rest := ids[0], ids[1..];
    var c := s.podcastColors[id];
    var t := Release(s, id);
    FreedFrame(rest, s.podcastColors, selected, id);
    var freed := Freed(rest, s.podcastColors, selected);
    assert Freed(ids, s.podcastColors, selected) == [c] + freed;
    assert ReleaseDeselected(s, ids, selected) == ReleaseDeselected(t, rest, selected);
    assert (s.available + [c]) + freed == s.available + ([c] + freed);
  }

  /** The release walk appends the colours of the deselected ids to the pool, in the order it visits them. */
  lemma {:induction false} ReleaseDeselectedPool(s: ColorState, ids: seq<PodcastId>, selected: set<PodcastId>)
    requires HeldApart(s, ids)
    ensures ReleaseDeselected(s, ids, selected).available == s.available + Freed(ids, s.podcastColors, selected)
    decreases |ids|
  {
    if ids != [] {
      if ids[0] in selected {
        HeldApartTail(s, ids);
        ReleaseDeselectedPool(s, ids[1..], selected);
        PoolStepKept(s, ids, selected);
      } else {
        HeldApartAfterRelease(s, ids);
        ReleaseDeselectedPool(Release(s, ids[0]), ids[1..], selected);
        PoolStepReleased(s, ids, selected);
      }
    }
  }

  /**
   * After `updateColorAssignments(S)` exactly the podcastColors ids that are in S keep a colour, each the one
   * it had; the released colours follow the pool in Map order; the partition still holds.
   */
  lemma UpdateAssignmentsEffect(s: ColorState, selected: set<PodcastId>)
    requires Partitioned(s)
    ensures var r := UpdateAssignments(s, selected);
      && Partitioned(r)
      && r.podcastColors.Keys == s.podcastColors.Keys * selected
      && (forall id :: id in r.podcastColors ==> r.podcastColors[id] == s.podcastColors[id])
      && r.order == Without(s.order, s.podcastColors.Keys - selected)
      && r.available == s.available + Freed(s.order, s.podcastColors, selected)
  {
    ReleaseDeselectedPreserves(s, s.order, selected);
    ReleaseDeselectedMap(s, s.order, selected);
    ReleaseDeselectedOrder(s, s.order, selected);
    assert HeldApart(s, s.order);
    ReleaseDeselectedPool(s, s.order, selected);
    assert Deselected(s.order, selected) == s.podcastColors.Keys - selected;
  }

  /** The store object: the three pieces of state are fields that the actions reassign. */
  class ColorStore {
    var available: seq<Color>
    var podcastColors: map<PodcastId, Color>
    var order: seq<PodcastId>

    /** The store's state as a value. */
    function State(): ColorState
      reads this
    {
      ColorState(available, podcastColors, order)
    }

    ghost predicate Valid()
      reads this
    {
      Partitioned(State())
    }

    constructor ()
      ensures State() == Initial() && Valid()
    {
      available := DISTINCT_COLORS;
      podcastColors := map[];
      order := [];
      new;
      assert State() == Initial();
    }

    method GetPodcastColor(podcastId: PodcastId) returns (color: Color)
      requires Valid()
      modifies this
      ensures Valid()
      ensures (color, State()) == GetColor(old(State()), podcastId)
    {
      if podcastId in podcastColors {
        color := podcastColors[podcastId];
      } else if |available| > 0 {
        color := available[0];
        available := available[1..];
        podcastColors := podcastColors[podcastId := color];
        order := order + [podcastId];
      } else {
        color := DISTINCT_COLORS[0];
      }
      assert (color, State()) == GetColor(old(State()), podcastId);
      GetColorPreserves(old(State()), podcastId);
    }

    method ReleasePodcastColor(podcastId: PodcastId)
      requires Valid()
      modifies this
      ensures Valid()
      ensures State() == Release(old(State()), podcastId)
    {
      if podcastId in podcastColors {
        var color := podcastColors[podcastId];
        if color !in available {
          available := available + [color];
        }
        podcastColors := podcastColors - {podcastId};
        order := Without(order, {podcastId});
      }
      assert State() == Release(old(State()), podcastId);
      ReleasePreserves(old(State()), podcastId);
    }

    method ResetPodcastColors()
      modifies this
      ensures Valid()
      ensures State() == Initial()
    {
      podcastColors := map[];
      order := [];
      available := [];
      var i := 0;
      while i < |DISTINCT_COLORS|
        invariant 0 <= i <= |DISTINCT_COLORS|
        invariant available == DISTINCT_COLORS[..i]
        invariant podcastColors == map[] && order == []
      {
        if DISTINCT_COLORS[i] !in available {
          available := available + [DISTINCT_COLORS[i]];
        }
        i := i + 1;
      }
      assert DISTINCT_COLORS[..|DISTINCT_COLORS|] == DISTINCT_COLORS;
      assert State() == Initial();
    }

    method UpdateColorAssignments(currentlySelectedIds: set<PodcastId>)
      requires Valid()
      modifies this
      ensures Valid()
      ensures State() == UpdateAssignments(old(State()), currentlySelectedIds)
    {
      var ids := order;
      var i := 0;
      while i < |ids|
        invariant 0 <= i <= |ids|
        invariant Valid()
        invariant ReleaseDeselected(State(), ids[i..], currentlySelectedIds) == UpdateAssignments(old(State()), currentlySelectedIds)
      {
        WalkStep(State(), ids, i, currentlySelectedIds);
        if ids[i] !in currentlySelectedIds {
          ReleasePodcastColor(ids[i]);
        }
        i := i + 1;
      }
    }
  }
}
