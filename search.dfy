/**
 * The podcast search store (src/stores/searchStore.ts): the current query, its results, a loading flag
 * and an error message. The search request itself is outside the model; its outcome is a parameter.
 */
module Search {
  import opened Common

  /** A show returned by the search endpoint; the store never looks inside it. */
  datatype ShowItem = ShowItem(id: string, name: string, publisher: string, description: string, uri: string, totalEpisodes: int)

  /** What the awaited `searchPodcasts(newQuery)` produced: the shows, or the value it threw. */
  datatype SearchOutcome = Found(podcasts: seq<ShowItem>) | SearchFailed(err: Thrown)

  const SEARCH_FAILED_MESSAGE: string := "An error occurred"

  datatype SearchState = SearchState(query: string, results: seq<ShowItem>, isLoading: bool, error: Option<string>)

  /** The store's initial state. */
  function InitialSearch(): SearchState
  {
    SearchState("", [], false, None)
  }

  /** `performSearch(newQuery)` up to the `await`. */
  function Began(s: SearchState, newQuery: string): SearchState
  {
    s.(query := newQuery, isLoading := true, error := None)
  }

  /** `performSearch` after the `await`, given what the request produced. */
  function Ended(s: SearchState, outcome: SearchOutcome): SearchState
  {
    match outcome
    case Found(podcasts) => s.(results := podcasts, isLoading := false)
    case SearchFailed(err) => s.(error := Some(MessageOf(err, SEARCH_FAILED_MESSAGE)), isLoading := false)
  }

  /** `resetSearch()` */
  function Reset(s: SearchState): SearchState
  {
    s.(query := "", results := [], error := None)
  }

  /**
   * A completed search records its query and is no longer loading. On success the results are the
   * returned shows and there is no error; on failure the error is the thrown message, or the fixed text
   * for a thrown non-`Error`, and the previous results stay.
   */
  lemma PerformSearchEffect(s: SearchState, newQuery: string, outcome: SearchOutcome)
    ensures var r := Ended(Began(s, newQuery), outcome);
      && r.query == newQuery
      && !r.isLoading
      && (outcome.Found? ==> r.results == outcome.podcasts && r.error == None)
      && (outcome.SearchFailed? ==> r.results == s.results && r.error == Some(MessageOf(outcome.err, SEARCH_FAILED_MESSAGE)))
      && (outcome.SearchFailed? && outcome.err.OtherValue? ==> r.error == Some("An error occurred"))
  {
  }

  /** A successful search leaves a state that does not depend on anything before it. */
  lemma SuccessForgetsHistory(s: SearchState, t: SearchState, newQuery: string, podcasts: seq<ShowItem>)
    ensures Ended(Began(s, newQuery), Found(podcasts)) == Ended(Began(t, newQuery), Found(podcasts))
  {
  }

  /**
   * Two searches in flight whose replies arrive in the opposite order leave the later query beside the
   * earlier query's results: nothing ties a reply to the query that asked for it.
   */
  lemma OutOfOrderReplies(s: SearchState, q1: string, q2: string, p1: seq<ShowItem>, p2: seq<ShowItem>)
    ensures var r := Ended(Ended(Began(Began(s, q1), q2), Found(p2)), Found(p1));
      r.query == q2 && r.results == p1 && !r.isLoading
  {
  }

  /**
   * Resetting clears the query, the results and the error and leaves the loading flag alone; so it is the
   * initial state apart from the flag, and resetting twice is resetting once.
   */
  lemma ResetEffect(s: SearchState)
    ensures Reset(s) == InitialSearch().(isLoading := s.isLoading)
    ensures Reset(Reset(s)) == Reset(s)
    ensures s.isLoading ==> Reset(s) != InitialSearch()
  {
  }

  class SearchStore {
    var query: string
    var results: seq<ShowItem>
    var isLoading: bool
    var error: Option<string>

    function State(): SearchState
      reads this
    {
      SearchState(query, results, isLoading, error)
    }

    constructor ()
      ensures State() == InitialSearch()
    {
      query := "";
      results := [];
      isLoading := false;
      error := None;
    }

    /** The synchronous part of `performSearch(newQuery)`. */
    method BeginSearch(newQuery: string)
      modifies this
      ensures State() == Began(old(State()), newQuery)
    {
      query := newQuery;
      isLoading := true;
      error := None;
    }

    /** The part of `performSearch` after the `await`: the `try`, `catch` and `finally` blocks. */
    method FinishSearch(outcome: SearchOutcome)
      modifies this
      ensures State() == Ended(old(State()), outcome)
    {
      match outcome {
        case Found(podcasts) =>
          results := podcasts;
        case SearchFailed(err) =>
          error := Some(MessageOf(err, SEARCH_FAILED_MESSAGE));
      }
      isLoading := false;
    }

    /** `performSearch(newQuery)` with no other action between its start and its completion. */
    method PerformSearch(newQuery: string, outcome: SearchOutcome)
      modifies this
      ensures State() == Ended(Began(old(State()), newQuery), outcome)
    {
      BeginSearch(newQuery);
      FinishSearch(outcome);
    }

    method ResetSearch()
      modifies this
      ensures State() == Reset(old(State()))
    {
      query := "";
      results := [];
      error := None;
    }
  }
}
