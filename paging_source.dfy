/**
 * `LeetCodeQuestionsPagingSource`: how one page of the problem list is loaded
 * from (key, loadSize, search query, difficulty) and the remote outcome, and
 * which key a refresh restarts from.
 */
module QuestionsPaging {
  import opened Wrappers
  import opened KotlinInt
  import opened Text
  import opened Resources
  import opened Questions
  import GraphqlQuery

  /** The paging source's constructor fields. */
  datatype PagingSource = PagingSource(difficulty: Option<string>, searchQuery: Option<string>)

  /** The parts of Paging's `LoadParams` that `load` reads. */
  datatype LoadParams = LoadParams(key: Option<Int32>, loadSize: Int32)

  /** The arguments `load` passes to the remote `fetchProblems`. */
  datatype FetchProblemsArgs = FetchProblemsArgs(page: Int32, limit: Int32, searchKeyword: string, categorySlug: string)

  /** What `fetchProblems` does: return a Resource, or throw an exception with a (nullable) message. */
  datatype Fetch = Returned(response: Resource<QuestionListResponse>) | Raised(message: Option<string>)

  /** One loaded page with its neighbouring keys. */
  datatype Page = Page(data: seq<Question>, prevKey: Option<Int32>, nextKey: Option<Int32>)

  /** `LoadResult.Page` or `LoadResult.Error` (the exception's nullable message). */
  datatype LoadResult = LoadPage(page: Page) | LoadError(message: Option<string>)

  const LoadingStateMessage: string := "Loading state in paging source"

  /** `!s.isNullOrBlank()`. */
  predicate NotBlank(s: Option<string>) {
    s.Some? && !IsBlank(s.value)
  }

  /** The page requested: the key, or page 1 on the initial load. */
  function PageOf(params: LoadParams): (page: Int32)
    ensures params.key.None? ==> page == 1
    ensures params.key.Some? ==> page == params.key.value
  {
    params.key.GetOr(1)
  }

  /**
   * The remote call `load` makes. A non-blank search wins over the difficulty:
   * the two are never sent together.
   */
  function FetchArgs(source: PagingSource, params: LoadParams): (a: FetchProblemsArgs)
    ensures a.page == PageOf(params) && a.limit == params.loadSize
    ensures NotBlank(source.searchQuery) ==>
              a.searchKeyword == source.searchQuery.value && a.categorySlug == ""
    ensures !NotBlank(source.searchQuery) && NotBlank(source.difficulty) ==>
              a.searchKeyword == "" && a.categorySlug == source.difficulty.value
    ensures !NotBlank(source.searchQuery) && !NotBlank(source.difficulty) ==>
              a.searchKeyword == "" && a.categorySlug == ""
  {
    var (searchKeyword, categorySlug) :=
      if NotBlank(source.searchQuery) then (source.searchQuery.value, "")
      else if NotBlank(source.difficulty) then ("", source.difficulty.value)
      else ("", "");
    FetchProblemsArgs(PageOf(params), params.loadSize, searchKeyword, categorySlug)
  }

  predicate HasDifficulty(q: Question, difficulty: string) {
    EqualsIgnoreCase(q.difficulty, difficulty)
  }

  /** `a` is `b` with some elements dropped, the rest kept in order. */
  ghost predicate IsSubsequence<T>(a: seq<T>, b: seq<T>)
    decreases |b|
  {
    if a == [] then true
    else if b == [] then false
    else (a[0] == b[0] && IsSubsequence(a[1..], b[1..])) || IsSubsequence(a, b[1..])
  }

  lemma {:induction false} SubsequenceOfItself<T>(a: seq<T>)
    ensures IsSubsequence(a, a)
  {
    if a != [] {
      SubsequenceOfItself(a[1..]);
    }
  }

  /**
   * The client-side difficulty filter: exactly the questions whose difficulty
   * equals `difficulty` ignoring case, each as often as in `qs`, in their order.
   */
  function FilterByDifficulty(qs: seq<Question>, difficulty: string): (r: seq<Question>)
    ensures IsSubsequence(r, qs)
    ensures forall i :: 0 <= i < |r| ==> HasDifficulty(r[i], difficulty)
    ensures forall q :: multiset(r)[q] == if HasDifficulty(q, difficulty) then multiset(qs)[q] else 0
  {
    if qs == [] then []
    else
      var rest := FilterByDifficulty(qs[1..], difficulty);
      assert qs == [qs[0]] + qs[1..];
      if HasDifficulty(qs[0], difficulty) then
        assert ([qs[0]] + rest)[1..] == rest;
        [qs[0]] + rest
      else
        rest
  }

  /** The page's items: filtered on the client only when both search and difficulty are set. */
  function PageData(source: PagingSource, fetched: seq<Question>): (r: seq<Question>)
    ensures NotBlank(source.searchQuery) && NotBlank(source.difficulty) ==>
              r == FilterByDifficulty(fetched, source.difficulty.value)
    ensures !(NotBlank(source.searchQuery) && NotBlank(source.difficulty)) ==> r == fetched
    ensures IsSubsequence(r, fetched)
  {
    if NotBlank(source.searchQuery) && NotBlank(source.difficulty) then
      FilterByDifficulty(fetched, source.difficulty.value)
    else
      SubsequenceOfItself(fetched);
      fetched
  }

  /** The key before `page`: none on page 1, else `page - 1` (Kotlin Int arithmetic). */
  function PrevKey(page: Int32): (k: Option<Int32>)
    ensures k.None? <==> page == 1
    ensures k.Some? && page != MinValue ==> k.value == page - 1
  {
    if page == 1 then None else Some(Sub(page, 1))
  }

  /** The key after `page`: none when the page is empty, else `page + 1`. */
  function NextKey(page: Int32, data: seq<Question>): (k: Option<Int32>)
    ensures k.None? <==> data == []
    ensures k.Some? && page != MaxValue ==> k.value == page + 1
  {
    if data == [] then None else Some(Add(page, 1))
  }

  /**
   * `load(params)`, with the remote repository's `fetchProblems` given as a
   * function: the call it makes, and how every outcome maps to a result.
   */
  function Load(source: PagingSource, params: LoadParams, fetchProblems: FetchProblemsArgs -> Fetch): (r: LoadResult)
    ensures
      var page := PageOf(params);
      match fetchProblems(FetchArgs(source, params))
      case Raised(m) => r == LoadError(m)
      case Returned(Error(m, _)) => r == LoadError(Some(m))
      case Returned(Loading(_)) => r == LoadError(Some(LoadingStateMessage))
      case Returned(Success(response)) =>
        var data := PageData(source, QuestionsOf(response));
        r == LoadPage(Page(data, PrevKey(page), NextKey(page, data)))
  {
    var page := PageOf(params);
    match fetchProblems(FetchArgs(source, params))
    case Raised(m) => LoadError(m)
    case Returned(response) =>
      match response
      case Success(body) =>
        var data := PageData(source, QuestionsOf(body));
        LoadPage(Page(data, PrevKey(page), NextKey(page, data)))
      case Error(m, _) => LoadError(Some(m))
      case Loading(_) => LoadError(Some(LoadingStateMessage))
  }

  /** A page's items are always drawn, in order, from the fetched list. */
  lemma LoadedItemsComeFromFetch(source: PagingSource, params: LoadParams, fetchProblems: FetchProblemsArgs -> Fetch)
    requires Load(source, params, fetchProblems).LoadPage?
    ensures fetchProblems(FetchArgs(source, params)).Returned?
    ensures fetchProblems(FetchArgs(source, params)).response.Success?
    ensures IsSubsequence(Load(source, params, fetchProblems).page.data,
                          QuestionsOf(fetchProblems(FetchArgs(source, params)).response.successData))
  {
  }

  /**
   * The next key ignores `hasMore` and `totalLength`: two responses with the
   * same questions give the same page, and an empty (filtered) page always
   * ends paging.
   */
  lemma NextKeyIgnoresHasMore(source: PagingSource, params: LoadParams, qs: seq<Question>,
                               total1: Int32, more1: bool, f1: FetchProblemsArgs -> Fetch,
                               total2: Int32, more2: bool, f2: FetchProblemsArgs -> Fetch)
    requires f1(FetchArgs(source, params)) == Returned(Success(QuestionListResponse(Some(Data(Some(ProblemsetQuestionListV2(qs, total1, more1)))))))
    requires f2(FetchArgs(source, params)) == Returned(Success(QuestionListResponse(Some(Data(Some(ProblemsetQuestionListV2(qs, total2, more2)))))))
    ensures Load(source, params, f1) == Load(source, params, f2)
    ensures more1 && PageData(source, qs) == [] ==> Load(source, params, f1).page.nextKey.None?
  {
  }

  /** A response without `data` or without the list is an empty last page, not an error. */
  lemma MissingListIsEmptyLastPage(source: PagingSource, params: LoadParams, response: QuestionListResponse)
    requires response.data.None? || response.data.value.problemsetQuestionListV2.None?
    ensures Load(source, params, _ => Returned(Success(response))) ==
            LoadPage(Page([], PrevKey(PageOf(params)), None))
  {
    assert QuestionsOf(response) == [];
  }

  /**
   * Adjacent pages link up: a non-empty page `k` points forward to `k + 1`,
   * and page `k + 1` points back to `k`.
   */
  lemma AdjacentPagesLink(source: PagingSource, k: Int32, loadSize: Int32, fetchProblems: FetchProblemsArgs -> Fetch)
    requires 1 <= k < MaxValue
    requires Load(source, LoadParams(Some(k), loadSize), fetchProblems).LoadPage?
    requires Load(source, LoadParams(Some(k + 1), loadSize), fetchProblems).LoadPage?
    ensures
      var here := Load(source, LoadParams(Some(k), loadSize), fetchProblems).page;
      var next := Load(source, LoadParams(Some(k + 1), loadSize), fetchProblems).page;
      && (here.data != [] ==> here.nextKey == Some(k + 1))
      && next.prevKey == Some(k)
  {
    var here := Load(source, LoadParams(Some(k), loadSize), fetchProblems).page;
    var next := Load(source, LoadParams(Some(k + 1), loadSize), fetchProblems).page;
    LoadedPageKeys(source, LoadParams(Some(k), loadSize), fetchProblems);
    LoadedPageKeys(source, LoadParams(Some(k + 1), loadSize), fetchProblems);
    assert PageOf(LoadParams(Some(k), loadSize)) == k;
    assert PageOf(LoadParams(Some(k + 1), loadSize)) == k + 1;
    KeysOfAdjacentPages(k, here.data);
  }

  /** Page `k`'s next key and page `k + 1`'s previous key, in Int arithmetic away from the bounds. */
  lemma KeysOfAdjacentPages(k: Int32, data: seq<Question>)
    requires 1 <= k < MaxValue
    ensures data != [] ==> NextKey(k, data) == Some(k + 1)
    ensures PrevKey(k + 1) == Some(k)
  {
  }

  /** A loaded page's keys depend only on the requested page and on whether its data is empty. */
  lemma LoadedPageKeys(source: PagingSource, params: LoadParams, fetchProblems: FetchProblemsArgs -> Fetch)
    requires Load(source, params, fetchProblems).LoadPage?
    ensures
      var p := Load(source, params, fetchProblems).page;
      p.prevKey == PrevKey(PageOf(params)) && p.nextKey == NextKey(PageOf(params), p.data)
  {
  }

  /** The parts of Paging's `PagingState` `getRefreshKey` reads; the library's page lookup is a parameter. */
  datatype PagingState = PagingState(anchorPosition: Option<int>, closestPageToPosition: int -> Option<Page>)

  /** `getRefreshKey`: the closest page's prevKey + 1, else its nextKey - 1; null without an anchor or page. */
  function GetRefreshKey(state: PagingState): (k: Option<Int32>)
    ensures state.anchorPosition.None? ==> k.None?
    ensures state.anchorPosition.Some? ==>
              var closest := state.closestPageToPosition(state.anchorPosition.value);
              && (closest.None? ==> k.None?)
              && (closest.Some? && closest.value.prevKey.Some? ==> k == Some(Add(closest.value.prevKey.value, 1)))
              && (closest.Some? && closest.value.prevKey.None? ==> k == closest.value.nextKey.Map(n => Sub(n, 1)))
  {
    match state.anchorPosition
    case None => None
    case Some(anchor) =>
      match state.closestPageToPosition(anchor)
      case None => None
      case Some(p) =>
        if p.prevKey.Some? then Some(Add(p.prevKey.value, 1))
        else p.nextKey.Map(n => Sub(n, 1))
  }

  /**
   * A refresh anchored on a page loaded with key `k` reloads key `k`; the only
   * exception is an empty first page, which has no keys at all.
   */
  lemma {:induction false} RefreshKeyReloadsAnchorPage(source: PagingSource, k: Int32, loadSize: Int32,
                                     fetchProblems: FetchProblemsArgs -> Fetch, anchor: int)
    requires MinValue < k < MaxValue
    requires Load(source, LoadParams(Some(k), loadSize), fetchProblems).LoadPage?
    ensures
      var p := Load(source, LoadParams(Some(k), loadSize), fetchProblems).page;
      var state := PagingState(Some(anchor), _ => Some(p));
      GetRefreshKey(state) == if k == 1 && p.data == [] then None else Some(k)
  {
    var p := Load(source, LoadParams(Some(k), loadSize), fetchProblems).page;
    LoadedPageKeys(source, LoadParams(Some(k), loadSize), fetchProblems);
    RefreshKeyOfKeyedPage(p, k, anchor);
  }

  /** The refresh key of a page whose keys are those `load` gives key `k`. */
  lemma RefreshKeyOfKeyedPage(p: Page, k: Int32, anchor: int)
    requires MinValue < k < MaxValue
    requires p.prevKey == PrevKey(k) && p.nextKey == NextKey(k, p.data)
    ensures GetRefreshKey(PagingState(Some(anchor), _ => Some(p))) == if k == 1 && p.data == [] then None else Some(k)
  {
  }

  /**
   * Search and difficulty together: the remote call searches only, and every
   * item of the page has the difficulty, ignoring case.
   */
  lemma SearchWithDifficultyFiltersOnClient(source: PagingSource, params: LoadParams, fetchProblems: FetchProblemsArgs -> Fetch)
    requires NotBlank(source.searchQuery) && NotBlank(source.difficulty)
    ensures FetchArgs(source, params).searchKeyword == source.searchQuery.value
    ensures FetchArgs(source, params).categorySlug == ""
    ensures
      var r := Load(source, params, fetchProblems);
      r.LoadPage? ==> forall i :: 0 <= i < |r.page.data| ==> HasDifficulty(r.page.data[i], source.difficulty.value)
  {
  }

  /**
   * If the remote repository forwards the page number unchanged to the problems
   * request builder, the initial load (no key, so page 1) asks the server to skip
   * `loadSize` questions: the builder assumes pages counted from 0, `load` counts
   * from 1. (That repository's implementation is not part of this model.)
   */
  lemma InitialLoadSkipsOnePage(source: PagingSource, loadSize: Int32)
    ensures
      var a := FetchArgs(source, LoadParams(None, loadSize));
      GraphqlQuery.ProblemsJsonRequest(a.page, a.limit, a.searchKeyword, a.categorySlug).variables["skip"]
        == GraphqlQuery.IntValue(loadSize)
  {
  }
}
