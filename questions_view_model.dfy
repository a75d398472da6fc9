/**
 * `LeetCodeQuestionsViewModel`: the search query and the selected difficulty,
 * the five operations that change them, the trimmed parameters derived from
 * them, and the paging source each parameter value is turned into.
 */
module QuestionsViewModel {
  import opened Wrappers
  import opened Text
  import opened Questions
  import opened QuestionsPaging

  /** The `combine` step: the query trimmed, the difficulty as it is. */
  function DeriveParams(query: string, difficulty: Option<string>): (p: SearchFilterParams)
    ensures p.difficulty == difficulty
    ensures p.query == Trim(query)
    ensures p.query == [] <==> IsBlank(query)
    ensures p.query == [] || (!IsWhitespace(p.query[0]) && !IsWhitespace(p.query[|p.query| - 1]))
  {
    SearchFilterParams(Trim(query), difficulty)
  }

  /**
   * The `pagingSourceFactory`: the difficulty passes through unchanged and a
   * blank query becomes a null search query.
   */
  function PagingSourceFor(params: SearchFilterParams): (s: PagingSource)
    ensures s.difficulty == params.difficulty
    ensures s.searchQuery.None? <==> IsBlank(params.query)
    ensures s.searchQuery.Some? ==> s.searchQuery.value == params.query
  {
    PagingSource(params.difficulty, if !IsBlank(params.query) then Some(params.query) else None)
  }

  /**
   * `distinctUntilChanged` over the successive parameter snapshots: the
   * snapshots for which `flatMapLatest` builds a new pager.
   */
  function DistinctUntilChanged(snapshots: seq<SearchFilterParams>): (r: seq<SearchFilterParams>)
    ensures |r| <= |snapshots|
    ensures snapshots == [] <==> r == []
    ensures r != [] ==> r[0] == snapshots[0] && r[|r| - 1] == snapshots[|snapshots| - 1]
    ensures forall i :: 0 <= i < |r| - 1 ==> r[i] != r[i + 1]
    ensures IsSubsequence(r, snapshots)
  {
    if |snapshots| <= 1 then
      SubsequenceOfItself(snapshots);
      snapshots
    else
      var rest := DistinctUntilChanged(snapshots[1..]);
      if snapshots[0] == snapshots[1] then
        assert IsSubsequence(rest, snapshots);
        rest
      else
        var r := [snapshots[0]] + rest;
        assert r[1..] == rest;
        assert snapshots[1..][0] == snapshots[1];
        r
  }

  /** A snapshot equal to the last one adds no pager. */
  lemma {:induction false} RepeatedSnapshotAddsNoPager(history: seq<SearchFilterParams>, p: SearchFilterParams)
    requires history != [] && history[|history| - 1] == p
    ensures DistinctUntilChanged(history + [p]) == DistinctUntilChanged(history)
  {
    if |history| == 1 {
      assert history + [p] == [p, p];
    } else {
      assert (history + [p])[1..] == history[1..] + [p];
      RepeatedSnapshotAddsNoPager(history[1..], p);
    }
  }

  /** A snapshot different from the last one adds exactly one pager, for that snapshot. */
  lemma {:induction false} NewSnapshotAddsOnePager(history: seq<SearchFilterParams>, p: SearchFilterParams)
    requires history != [] && history[|history| - 1] != p
    ensures DistinctUntilChanged(history + [p]) == DistinctUntilChanged(history) + [p]
  {
    if |history| == 1 {
      assert history + [p] == [history[0], p];
    } else {
      assert (history + [p])[1..] == history[1..] + [p];
      NewSnapshotAddsOnePager(history[1..], p);
    }
  }

  /** Typing and submitting the same text give the same parameters. */
  lemma TypedAndSubmittedQueriesAgree(query: string, difficulty: Option<string>)
    ensures DeriveParams(Trim(query), difficulty) == DeriveParams(query, difficulty)
  {
    TrimIdempotent(query);
  }

  /** Whitespace typed around the query changes neither the parameters nor the pagers built. */
  lemma PaddingDoesNotRestartPaging(history: seq<SearchFilterParams>, query: string, w1: string, w2: string, difficulty: Option<string>)
    requires IsBlank(w1) && IsBlank(w2)
    requires history != [] && history[|history| - 1] == DeriveParams(query, difficulty)
    ensures DeriveParams(w1 + query + w2, difficulty) == DeriveParams(query, difficulty)
    ensures DistinctUntilChanged(history + [DeriveParams(w1 + query + w2, difficulty)]) == DistinctUntilChanged(history)
  {
    TrimIgnoresPadding(w1, query, w2);
    RepeatedSnapshotAddsNoPager(history, DeriveParams(query, difficulty));
  }

  /**
   * From the view model's state to the remote call: a query that trims to
   * something is searched for (trimmed) and the difficulty only filters on the
   * client; a blank query falls back to the difficulty as the category.
   */
  lemma StateToRemoteCall(query: string, difficulty: Option<string>, params: LoadParams)
    ensures
      var a := FetchArgs(PagingSourceFor(DeriveParams(query, difficulty)), params);
      && (!IsBlank(query) ==> a.searchKeyword == Trim(query) && a.categorySlug == "")
      && (IsBlank(query) && NotBlank(difficulty) ==> a.searchKeyword == "" && a.categorySlug == difficulty.value)
      && (IsBlank(query) && !NotBlank(difficulty) ==> a.searchKeyword == "" && a.categorySlug == "")
  {
    var p := DeriveParams(query, difficulty);
    assert IsBlank(p.query) <==> IsBlank(query);
  }

  class LeetCodeQuestionsViewModel {
    var searchQuery: string
    var selectedDifficulty: Option<string>

    /** Both state flows start empty: query "" and no difficulty. */
    constructor ()
      ensures searchQuery == "" && selectedDifficulty == None
      ensures Params() == SearchFilterParams("", None)
    {
      searchQuery := "";
      selectedDifficulty := None;
    }

    /** The parameters the current state derives. */
    function Params(): SearchFilterParams
      reads this
    {
      DeriveParams(searchQuery, selectedDifficulty)
    }

    /** `updateSearchQuery`: stores the text as typed. */
    method UpdateSearchQuery(query: string)
      modifies this
      ensures searchQuery == query && selectedDifficulty == old(selectedDifficulty)
      ensures Params() == DeriveParams(query, old(selectedDifficulty))
    {
      searchQuery := query;
    }

    /** `searchQuestions`: stores the text trimmed (`TypedAndSubmittedQueriesAgree`: the parameters are those of typing it). */
    method SearchQuestions(query: string)
      modifies this
      ensures searchQuery == Trim(query) && selectedDifficulty == old(selectedDifficulty)
    {
      searchQuery := Trim(query);
    }

    /** `clearSearch`: empties the query, keeps the difficulty. */
    method ClearSearch()
      modifies this
      ensures searchQuery == "" && selectedDifficulty == old(selectedDifficulty)
      ensures Params() == SearchFilterParams("", old(selectedDifficulty))
    {
      searchQuery := "";
    }

    /** `filterByDifficulty`: sets the difficulty, keeps the query. */
    method FilterByDifficulty(difficulty: string)
      modifies this
      ensures selectedDifficulty == Some(difficulty) && searchQuery == old(searchQuery)
      ensures Params() == DeriveParams(old(searchQuery), Some(difficulty))
    {
      selectedDifficulty := Some(difficulty);
    }

    /** `clearFilters`: back to the initial state, whatever the state was, so twice is once. */
    method ClearFilters()
      modifies this
      ensures searchQuery == "" && selectedDifficulty == None
      ensures Params() == SearchFilterParams("", None)
    {
      selectedDifficulty := None;
      searchQuery := "";
    }
  }
}
