# Questions paging and local profile cache, modelled in Dafny

This project models the sequential core behind the LeetCode questions screen and the
local profile cache of the Ken Android app. It has five parts:

- **`Resource<T>`** (`resource.dfy`, module `Resources`). This is the outcome type every
  fetch returns. Success carries a payload, Error a message and possibly a payload, and
  Loading possibly a payload. It comes with the state predicates, `getSuccessData`,
  `getErrorMessage`, the taps `onSuccess`/`onError`/`onLoading` and `map`.
- **The paging load rule** (`paging_source.dfy`, module `QuestionsPaging`). This is
  `LeetCodeQuestionsPagingSource.load`:
  - the key defaults to page 1;
  - a non-blank search wins over the difficulty, and the two are never sent together;
  - when both are set, the page is filtered on the client by difficulty, ignoring case;
  - `prevKey` is absent only on page 1, and `nextKey` is absent exactly when the
    (filtered) page is empty, whatever `hasMore` says;
  - remote Error, Loading and exceptions become load errors.

  The module also models `getRefreshKey`. The remote `fetchProblems` is a function
  parameter of `Load`, so every lemma holds for any remote behaviour.
- **The GraphQL request builders** (`graphql_query.dfy`, module `GraphqlQuery`). Each
  builder returns a `{query, operationName, variables}` record. The variables are a
  `map<string, Value>`, and the query documents are opaque tags. Each builder is checked
  against the operation name and the variable declarations in its document's header, and
  the skip/keyword/category choices of the problems request are checked too.
- **The search/filter state** (`questions_view_model.dfy`, module `QuestionsViewModel`).
  This is a class with the two fields `searchQuery` and `selectedDifficulty` and the five
  methods that assign them. Pure functions cover the rest:
  - the trimmed `SearchFilterParams`;
  - the arguments the paging source is built with;
  - `distinctUntilChanged`, which decides when a new pager is created.
- **The local cache** (`local_repository.dfy`, module `LocalRepository`). This is a class
  whose six fields are the six username-keyed tables. It has get (returning `Resource`),
  save, delete, delete-all and last-fetch-time per table, plus `deleteUser`,
  `clearUserCache`, `clearCache` and `cleanExpiredCache`.
  - The DAO can throw on any call. Each operation takes a *fault plan*: the index of the
    first DAO call of the operation that throws, and the exception's message. The `get`
    reads turn the exception into `Error("Database error: …")`. The six
    `getLast*FetchTime` reads return null instead, as they do for a missing row. Writes
    propagate the exception as `Threw`, and the calls already made stay made.
  - The multi-step operations are proved against pure functions of the store:
    `DeleteUserFrom`, `ClearFrom` and `Sweep`.
  - Lemmas give the sweep in closed form: what it deletes when nothing fails, what it has
    deleted when DAO call `c` throws, and that no other row survives changed.

Helper modules: `Wrappers` holds Option, which stands for Kotlin's nullable types.
`KotlinInt` holds the 32-bit `Int` with wrap-around. `Text` holds Kotlin's `isBlank`,
`trim` and `equals(ignoreCase = true)`.

Decisions that follow the code:

- **Page keys start at 1.** The problems request builder's comment speaks of 0-based
  pages. The code starts at 1, and so does the model.
- **`searchKeyword` and a null `limit`.** `put(key, null)` on an org.json object removes
  the key. So an empty `searchKeyword`, or a null `limit` for recent submissions, is an
  absent key, not a JSON null.
- **The "Unknown error" fallback is dead code.** `Resource.Error`'s message is a non-null
  `String`, so a remote Error always yields a load error with its own message. The
  model's Error has a non-null message, so that fallback never appears in it.
- **No stale flag, no TTL.** `Resource` has no staleness flag, and no read compares a
  row's `lastFetchTime` with the clock. The model has neither.
- **The expiry sweep aborts.** The code stops at the first exception and rethrows it,
  and so does the model. The code also selects only from the **user** table, through the DAO's
  expiry query. Rows of those users are deleted from every table, and rows in other
  tables are never examined for age.

Two observations the lemmas make precise:

- `GraphqlQuery.RecentSubmissionsConformsIffLimit`: the recent-submissions document
  declares `$limit: Int!`. A null `limit` is dropped from the variables, so the request
  then lacks a variable its own header requires.
- `QuestionsPaging.InitialLoadSkipsOnePage`: `skip = page * limit` while the first key is
  1. The initial load therefore asks for `skip = loadSize` whenever the remote repository
  forwards the page number unchanged. That repository's implementation is not part of
  this model, so this is stated only under that premise.

## Model

| member | source | states |
|---|---|---|
| `Resources.ExactlyOneState` | app/src/main/java/com/devrachit/ken/utility/NetworkUtility/Resource.kt:41-51 | exactly one of isSuccess, isError, isLoading holds for every value |
| `Resources.Resource.GetSuccessData` | app/src/main/java/com/devrachit/ken/utility/NetworkUtility/Resource.kt:56-59 | returns a payload iff the value is Success, and it is that Success's payload |
| `Resources.SuccessDataOnlyFromSuccess` | app/src/main/java/com/devrachit/ken/utility/NetworkUtility/Resource.kt:53-59 | Error and Loading give null success data even when they carry data |
| `Resources.Resource.GetErrorMessage` | app/src/main/java/com/devrachit/ken/utility/NetworkUtility/Resource.kt:64-67 | returns a message iff the value is Error, and it is the Error's message |
| `Resources.Resource.OnSuccess` | app/src/main/java/com/devrachit/ken/utility/NetworkUtility/Resource.kt:72-77 | returns the receiver unchanged; the action sees the payload once on Success and is never called otherwise |
| `Resources.Resource.OnError` | app/src/main/java/com/devrachit/ken/utility/NetworkUtility/Resource.kt:82-87 | returns the receiver unchanged; the action sees the message once on Error and is never called otherwise |
| `Resources.Resource.OnLoading` | app/src/main/java/com/devrachit/ken/utility/NetworkUtility/Resource.kt:92-97 | returns the receiver unchanged; the action runs once on Loading and never otherwise |
| `Resources.TapChainFiresOnce` | app/src/main/java/com/devrachit/ken/utility/NetworkUtility/Resource.kt:72-97 | chaining the three taps returns the original value and fires exactly one action |
| `Resources.Resource.Map` | app/src/main/java/com/devrachit/ken/utility/NetworkUtility/Resource.kt:102-106 | keeps the state and the Error message; a payload is transformed, and an absent payload stays absent |
| `Resources.MapIdentity` | app/src/main/java/com/devrachit/ken/utility/NetworkUtility/Resource.kt:102-106 | mapping the identity function changes nothing |
| `Resources.MapComposition` | app/src/main/java/com/devrachit/ken/utility/NetworkUtility/Resource.kt:102-106 | mapping f then g equals mapping g after f |
| `Questions.QuestionsOf` | app/src/main/java/com/devrachit/ken/presentation/screens/dashboard/questions/LeetCodeQuestionsPagingSource.kt:44 | a response's questions, empty when `data` or the question list is null |
| `QuestionsPaging.PageOf` | app/src/main/java/com/devrachit/ken/presentation/screens/dashboard/questions/LeetCodeQuestionsPagingSource.kt:18 | the requested page is the key, or 1 when there is none |
| `QuestionsPaging.FetchArgs` | app/src/main/java/com/devrachit/ken/presentation/screens/dashboard/questions/LeetCodeQuestionsPagingSource.kt:20-40 | the remote call uses the page and loadSize; a non-blank search gives (search, ""), else a non-blank difficulty gives ("", difficulty), else ("", "") |
| `QuestionsPaging.FilterByDifficulty` | app/src/main/java/com/devrachit/ken/presentation/screens/dashboard/questions/LeetCodeQuestionsPagingSource.kt:49-51 | keeps exactly the questions whose difficulty equals the filter ignoring case, as often as in the input and in input order |
| `QuestionsPaging.PageData` | app/src/main/java/com/devrachit/ken/presentation/screens/dashboard/questions/LeetCodeQuestionsPagingSource.kt:47-54 | filters on the client only when search and difficulty are both non-blank, else returns the fetched list; always a subsequence of it |
| `QuestionsPaging.PrevKey` | app/src/main/java/com/devrachit/ken/presentation/screens/dashboard/questions/LeetCodeQuestionsPagingSource.kt:60 | absent iff the page is 1, else page - 1 |
| `QuestionsPaging.NextKey` | app/src/main/java/com/devrachit/ken/presentation/screens/dashboard/questions/LeetCodeQuestionsPagingSource.kt:61 | absent iff the page's data is empty, else page + 1 |
| `QuestionsPaging.Load` | app/src/main/java/com/devrachit/ken/presentation/screens/dashboard/questions/LeetCodeQuestionsPagingSource.kt:16-76 | a Success becomes a page with the filtered data and both keys; an Error becomes a load error with its message; Loading becomes "Loading state in paging source"; a thrown exception becomes a load error with its message |
| `QuestionsPaging.LoadedItemsComeFromFetch` | app/src/main/java/com/devrachit/ken/presentation/screens/dashboard/questions/LeetCodeQuestionsPagingSource.kt:42-62 | a loaded page comes only from a Success, and its items are a subsequence of the fetched questions |
| `QuestionsPaging.NextKeyIgnoresHasMore` | app/src/main/java/com/devrachit/ken/presentation/screens/dashboard/questions/LeetCodeQuestionsPagingSource.kt:44-61 | for any key, load size and remote fetch, totalLength and hasMore never affect the page; an empty filtered page has no next key even when hasMore is true |
| `QuestionsPaging.MissingListIsEmptyLastPage` | app/src/main/java/com/devrachit/ken/presentation/screens/dashboard/questions/LeetCodeQuestionsPagingSource.kt:44-62 | a Success without data or without a question list is an empty page with no next key, not an error |
| `QuestionsPaging.LoadedPageKeys` | app/src/main/java/com/devrachit/ken/presentation/screens/dashboard/questions/LeetCodeQuestionsPagingSource.kt:58-62 | a loaded page's keys are determined by the requested page and by whether the page's data is empty |
| `QuestionsPaging.AdjacentPagesLink` | app/src/main/java/com/devrachit/ken/presentation/screens/dashboard/questions/LeetCodeQuestionsPagingSource.kt:58-62 | a non-empty page k points forward to k + 1, and page k + 1 points back to k |
| `QuestionsPaging.SearchWithDifficultyFiltersOnClient` | app/src/main/java/com/devrachit/ken/presentation/screens/dashboard/questions/LeetCodeQuestionsPagingSource.kt:20-54 | with search and difficulty both set, the remote call searches with no category, and every item on the page has the difficulty |
| `QuestionsPaging.GetRefreshKey` | app/src/main/java/com/devrachit/ken/presentation/screens/dashboard/questions/LeetCodeQuestionsPagingSource.kt:78-83 | null without an anchor or a closest page; else the closest page's prevKey + 1, falling back to nextKey - 1 |
| `QuestionsPaging.RefreshKeyReloadsAnchorPage` | app/src/main/java/com/devrachit/ken/presentation/screens/dashboard/questions/LeetCodeQuestionsPagingSource.kt:78-83 | anchored on a page loaded with key k, the refresh key is k, except for an empty first page |
| `QuestionsPaging.InitialLoadSkipsOnePage` | app/src/main/java/com/devrachit/ken/data/remote/queries/GraphqlQuery.kt:287-296 | with no key, the problems request built from load's arguments has skip = loadSize |
| `GraphqlQuery.ProblemsJsonRequest` | app/src/main/java/com/devrachit/ken/data/remote/queries/GraphqlQuery.kt:287-311 | fixed query and operation name; limit is passed; skip is page * limit in Int arithmetic; searchKeyword is present iff non-empty; categorySlug is present iff non-empty and not "all-code-questions"; no other variable |
| `GraphqlQuery.ProblemsRequestConforms` | app/src/main/java/com/devrachit/ken/data/remote/queries/GraphqlQuery.kt:264-311 | every problems request uses its document's operation name and only variables of the declared types |
| `GraphqlQuery.ProblemsSkipIsPageTimesLimit` | app/src/main/java/com/devrachit/ken/data/remote/queries/GraphqlQuery.kt:293 | when page * limit has no overflow, skip is exactly page * limit |
| `GraphqlQuery.UserProfileCalendarJsonRequest` | app/src/main/java/com/devrachit/ken/data/remote/queries/GraphqlQuery.kt:124-134 | always has username; has year iff a year is given, and then equals it |
| `GraphqlQuery.CalendarRequestConforms` | app/src/main/java/com/devrachit/ken/data/remote/queries/GraphqlQuery.kt:104-134 | the calendar request matches its document's header with or without a year |
| `GraphqlQuery.RecentAcSubmissionsJsonRequest` | app/src/main/java/com/devrachit/ken/data/remote/queries/GraphqlQuery.kt:197-203 | username is passed; limit defaults to 15, is passed through when given, and is absent when null |
| `GraphqlQuery.RecentSubmissionsConformsIffLimit` | app/src/main/java/com/devrachit/ken/data/remote/queries/GraphqlQuery.kt:186-203 | the request matches its header, which declares `$limit: Int!`, exactly when a limit is given |
| `GraphqlQuery.UserExistsJsonRequest` | app/src/main/java/com/devrachit/ken/data/remote/queries/GraphqlQuery.kt:50-56 | the user-info document under operation name `userInfo`, with `username` as its only variable |
| `GraphqlQuery.UserQuestionCountJsonRequest` | app/src/main/java/com/devrachit/ken/data/remote/queries/GraphqlQuery.kt:82-88 | the question-count document under operation name `userSessionProgress`, with `username` as its only variable |
| `GraphqlQuery.CurrentDataJsonRequest` | app/src/main/java/com/devrachit/ken/data/remote/queries/GraphqlQuery.kt:96-102 | the current-timestamp document under operation name `currentTimestamp`, with no variables |
| `GraphqlQuery.UserContestRankingJsonRequest` | app/src/main/java/com/devrachit/ken/data/remote/queries/GraphqlQuery.kt:178-184 | the contest-ranking document under operation name `userContestRankingInfo`, with `username` as its only variable |
| `GraphqlQuery.ContestRatingHistogramJsonRequest` | app/src/main/java/com/devrachit/ken/data/remote/queries/GraphqlQuery.kt:216-222 | the histogram document under operation name `contestRatingHistogram`, with no variables |
| `GraphqlQuery.UserBadgesJsonRequest` | app/src/main/java/com/devrachit/ken/data/remote/queries/GraphqlQuery.kt:254-260 | the badges document under operation name `userBadges`, with `username` as its only variable |
| `GraphqlQuery.PerUserRequestsCarryOnlyUsername` | app/src/main/java/com/devrachit/ken/data/remote/queries/GraphqlQuery.kt:50-260 | the user-info, question-count, contest-ranking and badges requests have exactly `username` as variables, under their documents' operation names |
| `GraphqlQuery.NoArgumentRequestsHaveNoVariables` | app/src/main/java/com/devrachit/ken/data/remote/queries/GraphqlQuery.kt:96-222 | the current-timestamp and histogram requests have empty variables and conform to their headers |
| `Text.Trim` | app/src/main/java/com/devrachit/ken/presentation/screens/dashboard/questions/LeetcodeQuestionViewModel.kt:35 | the trimmed query is the slice of the query between its leading and its trailing whitespace; it neither starts nor ends with whitespace, and it is empty iff the query is blank |
| `Text.TrimIdempotent` | app/src/main/java/com/devrachit/ken/presentation/screens/dashboard/questions/LeetcodeQuestionViewModel.kt:70 | trimming an already trimmed query changes nothing |
| `Text.TrimIgnoresPadding` | app/src/main/java/com/devrachit/ken/presentation/screens/dashboard/questions/LeetcodeQuestionViewModel.kt:35 | whitespace around a query does not change its trimmed form |
| `QuestionsViewModel.DeriveParams` | app/src/main/java/com/devrachit/ken/presentation/screens/dashboard/questions/LeetcodeQuestionViewModel.kt:33-37 | the parameters are `Trim(query)` and the difficulty unchanged; the query is empty iff blank and has no whitespace at either end |
| `QuestionsViewModel.PagingSourceFor` | app/src/main/java/com/devrachit/ken/presentation/screens/dashboard/questions/LeetcodeQuestionViewModel.kt:53-57 | the paging source gets the difficulty unchanged, and the query, or null iff the query is blank |
| `QuestionsViewModel.DistinctUntilChanged` | app/src/main/java/com/devrachit/ken/presentation/screens/dashboard/questions/LeetcodeQuestionViewModel.kt:30-40 | the pagers built form an in-order subsequence of the snapshots, with no two consecutive equal, starting at the first snapshot and ending at the last |
| `QuestionsViewModel.RepeatedSnapshotAddsNoPager` | app/src/main/java/com/devrachit/ken/presentation/screens/dashboard/questions/LeetcodeQuestionViewModel.kt:40-44 | a snapshot equal to the previous one builds no new pager |
| `QuestionsViewModel.NewSnapshotAddsOnePager` | app/src/main/java/com/devrachit/ken/presentation/screens/dashboard/questions/LeetcodeQuestionViewModel.kt:40-46 | a snapshot that differs from the previous one builds exactly one new pager, for that snapshot |
| `QuestionsViewModel.TypedAndSubmittedQueriesAgree` | app/src/main/java/com/devrachit/ken/presentation/screens/dashboard/questions/LeetcodeQuestionViewModel.kt:63-71 | storing the text verbatim or trimmed derives the same parameters |
| `QuestionsViewModel.PaddingDoesNotRestartPaging` | app/src/main/java/com/devrachit/ken/presentation/screens/dashboard/questions/LeetcodeQuestionViewModel.kt:30-44 | adding whitespace around the query changes neither the parameters nor the pagers built |
| `QuestionsViewModel.StateToRemoteCall` | app/src/main/java/com/devrachit/ken/presentation/screens/dashboard/questions/LeetcodeQuestionViewModel.kt:53-57 | a non-blank query is searched for trimmed, with no category; a blank query falls back to the difficulty as the category |
| `QuestionsViewModel.LeetCodeQuestionsViewModel.constructor` | app/src/main/java/com/devrachit/ken/presentation/screens/dashboard/questions/LeetcodeQuestionViewModel.kt:23-27 | the initial state is query "" and no difficulty |
| `QuestionsViewModel.LeetCodeQuestionsViewModel.UpdateSearchQuery` | app/src/main/java/com/devrachit/ken/presentation/screens/dashboard/questions/LeetcodeQuestionViewModel.kt:63-66 | stores the text verbatim and keeps the difficulty |
| `QuestionsViewModel.LeetCodeQuestionsViewModel.SearchQuestions` | app/src/main/java/com/devrachit/ken/presentation/screens/dashboard/questions/LeetcodeQuestionViewModel.kt:68-71 | stores the text trimmed and keeps the difficulty |
| `QuestionsViewModel.LeetCodeQuestionsViewModel.ClearSearch` | app/src/main/java/com/devrachit/ken/presentation/screens/dashboard/questions/LeetcodeQuestionViewModel.kt:73-76 | sets the query to "" and keeps the difficulty |
| `QuestionsViewModel.LeetCodeQuestionsViewModel.FilterByDifficulty` | app/src/main/java/com/devrachit/ken/presentation/screens/dashboard/questions/LeetcodeQuestionViewModel.kt:79-82 | sets the difficulty and keeps the query |
| `QuestionsViewModel.LeetCodeQuestionsViewModel.ClearFilters` | app/src/main/java/com/devrachit/ken/presentation/screens/dashboard/questions/LeetcodeQuestionViewModel.kt:84-88 | resets both fields to their initial values from any state, so it is idempotent |
| `LocalRepository.LeetcodeLocalRepositoryImpl.constructor` | app/src/main/java/com/devrachit/ken/data/repository/local/LeetcodeLocalRepositoryImpl.kt:26-32 | the repository starts over the six tables of the given database |
| `LocalRepository.LeetcodeLocalRepositoryImpl.GetUserInfo` | app/src/main/java/com/devrachit/ken/data/repository/local/LeetcodeLocalRepositoryImpl.kt:52-61 | Success with the cached user when a row exists; else Error("User not found in cache"); a storage failure gives Error("Database error: …") |
| `LocalRepository.LeetcodeLocalRepositoryImpl.SaveUserInfo` | app/src/main/java/com/devrachit/ken/data/repository/local/LeetcodeLocalRepositoryImpl.kt:63-74 | writes only when the username is non-null, stamped with the current time, as an upsert on the username; a storage failure propagates and writes nothing |
| `LocalRepository.SavedUserIsFound` | app/src/main/java/com/devrachit/ken/data/repository/local/LeetcodeLocalRepositoryImpl.kt:52-74 | a saved user reads back as Success of the same user info |
| `LocalRepository.LeetcodeLocalRepositoryImpl.GetLastFetchTime` | app/src/main/java/com/devrachit/ken/data/repository/local/LeetcodeLocalRepositoryImpl.kt:76-82 | the user row's lastFetchTime; null when there is no row and on a storage failure |
| `LocalRepository.LeetcodeLocalRepositoryImpl.GetLastUserQuestionStatusFetchTime` | app/src/main/java/com/devrachit/ken/data/repository/local/LeetcodeLocalRepositoryImpl.kt:135-141 | the question-status row's lastFetchTime; null when absent and on failure |
| `LocalRepository.LeetcodeLocalRepositoryImpl.GetUserQuestionStatus` | app/src/main/java/com/devrachit/ken/data/repository/local/LeetcodeLocalRepositoryImpl.kt:143-152 | Success with the row, else Error("User Question Status not found in cache"); a storage failure gives a database error |
| `LocalRepository.LeetcodeLocalRepositoryImpl.SaveUserQuestionStatus` | app/src/main/java/com/devrachit/ken/data/repository/local/LeetcodeLocalRepositoryImpl.kt:154-160 | upserts the row under its own username; nothing else changes; a failure propagates |
| `LocalRepository.LeetcodeLocalRepositoryImpl.DeleteAllUserQuestionStatus` | app/src/main/java/com/devrachit/ken/data/repository/local/LeetcodeLocalRepositoryImpl.kt:162-168 | empties the question-status table only; a failure propagates |
| `LocalRepository.LeetcodeLocalRepositoryImpl.DeleteUserQuestionStatus` | app/src/main/java/com/devrachit/ken/data/repository/local/LeetcodeLocalRepositoryImpl.kt:174-180 | removes that user's question-status row only; a failure propagates |
| `LocalRepository.LeetcodeLocalRepositoryImpl.GetUserProfileCalender` | app/src/main/java/com/devrachit/ken/data/repository/local/LeetcodeLocalRepositoryImpl.kt:183-192 | Success with the row, else Error("User Profile Calendar not found in cache"); a storage failure gives a database error |
| `LocalRepository.LeetcodeLocalRepositoryImpl.SaveUserProfileCalender` | app/src/main/java/com/devrachit/ken/data/repository/local/LeetcodeLocalRepositoryImpl.kt:194-200 | upserts the entity under its own username, ignoring the username argument; a failure propagates |
| `LocalRepository.LeetcodeLocalRepositoryImpl.DeleteAllUserProfileCalender` | app/src/main/java/com/devrachit/ken/data/repository/local/LeetcodeLocalRepositoryImpl.kt:202-208 | empties the calendar table only; a failure propagates |
| `LocalRepository.LeetcodeLocalRepositoryImpl.DeleteUserProfileCalender` | app/src/main/java/com/devrachit/ken/data/repository/local/LeetcodeLocalRepositoryImpl.kt:210-216 | removes that user's calendar row only; a failure propagates |
| `LocalRepository.LeetcodeLocalRepositoryImpl.GetLastUserProfileCalenderFetchTime` | app/src/main/java/com/devrachit/ken/data/repository/local/LeetcodeLocalRepositoryImpl.kt:218-224 | the calendar row's lastFetchTime; null when absent and on failure |
| `LocalRepository.LeetcodeLocalRepositoryImpl.SaveRecentSubmissions` | app/src/main/java/com/devrachit/ken/data/repository/local/LeetcodeLocalRepositoryImpl.kt:231-240 | upserts the entity under its own username, ignoring the username argument; a failure propagates |
| `LocalRepository.LeetcodeLocalRepositoryImpl.DeleteAllRecentSubmissions` | app/src/main/java/com/devrachit/ken/data/repository/local/LeetcodeLocalRepositoryImpl.kt:242-248 | empties the recent-submissions table only; a failure propagates |
| `LocalRepository.LeetcodeLocalRepositoryImpl.DeleteRecentSubmissions` | app/src/main/java/com/devrachit/ken/data/repository/local/LeetcodeLocalRepositoryImpl.kt:250-256 | removes that user's recent-submissions row only; a failure propagates |
| `LocalRepository.LeetcodeLocalRepositoryImpl.GetRecentSubmissions` | app/src/main/java/com/devrachit/ken/data/repository/local/LeetcodeLocalRepositoryImpl.kt:258-267 | Success with the row, else Error("Data not found in cache"); a storage failure gives a database error |
| `LocalRepository.LeetcodeLocalRepositoryImpl.GetLastRecentSubmissionsFetchTime` | app/src/main/java/com/devrachit/ken/data/repository/local/LeetcodeLocalRepositoryImpl.kt:269-275 | the recent-submissions row's lastFetchTime; null when absent and on failure |
| `LocalRepository.LeetcodeLocalRepositoryImpl.GetUserContestRanking` | app/src/main/java/com/devrachit/ken/data/repository/local/LeetcodeLocalRepositoryImpl.kt:278-287 | Success with the row, else Error("User Contest Ranking not found in cache"); a storage failure gives a database error |
| `LocalRepository.LeetcodeLocalRepositoryImpl.SaveUserContestRanking` | app/src/main/java/com/devrachit/ken/data/repository/local/LeetcodeLocalRepositoryImpl.kt:289-295 | upserts the entity under its own username, ignoring the username argument; a failure propagates |
| `LocalRepository.LeetcodeLocalRepositoryImpl.DeleteUserContestRanking` | app/src/main/java/com/devrachit/ken/data/repository/local/LeetcodeLocalRepositoryImpl.kt:297-303 | removes that user's contest-ranking row only; a failure propagates |
| `LocalRepository.LeetcodeLocalRepositoryImpl.DeleteAllUserContestRankings` | app/src/main/java/com/devrachit/ken/data/repository/local/LeetcodeLocalRepositoryImpl.kt:305-311 | empties the contest-ranking table only; a failure propagates |
| `LocalRepository.LeetcodeLocalRepositoryImpl.GetLastUserContestRankingFetchTime` | app/src/main/java/com/devrachit/ken/data/repository/local/LeetcodeLocalRepositoryImpl.kt:313-319 | the contest-ranking row's lastFetchTime; null when absent and on failure |
| `LocalRepository.LeetcodeLocalRepositoryImpl.GetUserBadges` | app/src/main/java/com/devrachit/ken/data/repository/local/LeetcodeLocalRepositoryImpl.kt:322-331 | Success with the row, else Error("User Badges not found in cache"); a storage failure gives a database error |
| `LocalRepository.LeetcodeLocalRepositoryImpl.SaveUserBadges` | app/src/main/java/com/devrachit/ken/data/repository/local/LeetcodeLocalRepositoryImpl.kt:333-339 | upserts the entity under its own username, ignoring the username argument; a failure propagates |
| `LocalRepository.LeetcodeLocalRepositoryImpl.DeleteUserBadges` | app/src/main/java/com/devrachit/ken/data/repository/local/LeetcodeLocalRepositoryImpl.kt:341-347 | removes that user's badges row only; a failure propagates |
| `LocalRepository.LeetcodeLocalRepositoryImpl.DeleteAllUserBadges` | app/src/main/java/com/devrachit/ken/data/repository/local/LeetcodeLocalRepositoryImpl.kt:349-355 | empties the badges table only; a failure propagates |
| `LocalRepository.LeetcodeLocalRepositoryImpl.GetLastUserBadgesFetchTime` | app/src/main/java/com/devrachit/ken/data/repository/local/LeetcodeLocalRepositoryImpl.kt:357-363 | the badges row's lastFetchTime; null when absent and on failure |
| `LocalRepository.DeleteUserFrom` | app/src/main/java/com/devrachit/ken/data/repository/local/LeetcodeLocalRepositoryImpl.kt:106-117 | completes iff none of its six DAO calls throws, and then the user has no row in any table; other users' rows are never touched |
| `LocalRepository.LeetcodeLocalRepositoryImpl.DeleteUser` | app/src/main/java/com/devrachit/ken/data/repository/local/LeetcodeLocalRepositoryImpl.kt:106-117 | performs the six per-table deletions in order, stopping and propagating at the first throwing call, as DeleteUserFrom describes |
| `LocalRepository.LeetcodeLocalRepositoryImpl.ClearUserCache` | app/src/main/java/com/devrachit/ken/data/repository/local/LeetcodeLocalRepositoryImpl.kt:98-104 | is the same operation as deleteUser |
| `LocalRepository.ClearFrom` | app/src/main/java/com/devrachit/ken/data/repository/local/LeetcodeLocalRepositoryImpl.kt:85-96 | completes iff none of its six delete-alls throws, and then all six tables are empty |
| `LocalRepository.LeetcodeLocalRepositoryImpl.ClearCache` | app/src/main/java/com/devrachit/ken/data/repository/local/LeetcodeLocalRepositoryImpl.kt:85-96 | empties the six tables in order, stopping and propagating at the first throwing call, as ClearFrom describes |
| `LocalRepository.ExpiredUsers` | app/src/main/java/com/devrachit/ken/data/repository/local/LeetcodeLocalRepositoryImpl.kt:121 | the usernames whose user row satisfies the expiry predicate for the given threshold |
| `LocalRepository.ListExpired` | app/src/main/java/com/devrachit/ken/data/repository/local/LeetcodeLocalRepositoryImpl.kt:121 | the expiry query lists every selected username exactly once, in an unspecified order |
| `LocalRepository.LeetcodeLocalRepositoryImpl.CleanExpiredCache` | app/src/main/java/com/devrachit/ken/data/repository/local/LeetcodeLocalRepositoryImpl.kt:119-128 | a failing query changes nothing; otherwise it calls deleteUser for each listed expired username in order, as Sweep describes, stopping at the first exception |
| `LocalRepository.SweepAppend` | app/src/main/java/com/devrachit/ken/data/repository/local/LeetcodeLocalRepositoryImpl.kt:122-124 | after a completed prefix of the sweep, the next user costs one more deleteUser, six DAO calls further on |
| `LocalRepository.SweepAfterThrow` | app/src/main/java/com/devrachit/ken/data/repository/local/LeetcodeLocalRepositoryImpl.kt:122-127 | once a deletion has thrown, the users after it are never reached |
| `LocalRepository.SweepCompletes` | app/src/main/java/com/devrachit/ken/data/repository/local/LeetcodeLocalRepositoryImpl.kt:119-128 | without a throwing call, the sweep completes with every listed user deleted from every table and nothing else changed |
| `LocalRepository.SweepStops` | app/src/main/java/com/devrachit/ken/data/repository/local/LeetcodeLocalRepositoryImpl.kt:119-128 | when DAO call c throws, the first c / 6 users are deleted everywhere, the next one from its first c % 6 tables, nothing else changes, and the exception propagates |
| `LocalRepository.SweepKeepsUnlisted` | app/src/main/java/com/devrachit/ken/data/repository/local/LeetcodeLocalRepositoryImpl.kt:119-124 | users the sweep does not list keep all their rows, whether or not it throws |
| `LocalRepository.UnexpiredUsersSurviveSweep` | app/src/main/java/com/devrachit/ken/data/repository/local/LeetcodeLocalRepositoryImpl.kt:119-124 | a user whose user row is not expired keeps every row in every table |
| `LocalRepository.CleanExpiredRemovesExactlyExpired` | app/src/main/java/com/devrachit/ken/data/repository/local/LeetcodeLocalRepositoryImpl.kt:119-124 | with no failure, exactly the listed users disappear from all six tables |
| `LocalRepository.CleanExpiredStopsAtFault` | app/src/main/java/com/devrachit/ken/data/repository/local/LeetcodeLocalRepositoryImpl.kt:122-127 | a failing deletion propagates its exception; the deletions already done stay done; no later user is touched |

## Left out

- QuestionScreenComponents.kt and QuestionsScreen.kt: Compose rendering (colours, badges, the float progress ratio, the screen-local completed set); not sequential logic of the core.
- LeetcodeApiService.kt: the Retrofit HTTP interface, with headers and transport only.
- LeetcodeRemoteRepository.kt: an interface without logic. `fetchProblems` is the function parameter of `QuestionsPaging.Load`; its implementation (how it turns a page into a request) is not part of this model.
- `discoverAvailableCategories`, `testSearchFunctionality`, `testBasicAPICall`: network probing loops with delays and logging.
- `getUserInfoFlow` and the reactive plumbing (`combine`, `flatMapLatest`, `Pager`, `cachedIn`, coroutines): only their per-snapshot meaning is modelled, as parameter snapshots and `DistinctUntilChanged`.
- `getAllUsers`, `getAllUserQuestionStatuses`, `getAllUserCalendars`: `TODO()` stubs that always throw.
- DAO internals: the SQL of the expiry query is a predicate parameter of `CleanExpiredCache`. Its row order is left open. Inserts are assumed to replace the row with the same username (keyed upsert).
- Entity conversions: `toDomainModel`/`fromDomainModel` of the user table are modelled as the `UserInfo`/`Entity` pair. `getUserQuestionStatus` returns the cached entity itself instead of a converted domain object.
- LocalRepository.SavedUserIsFound: the entity class `LeetCodeUserEntity` is not part of this model, so the lemma rests on the modelled conversions being inverses (`toDomainModel(fromDomainModel(info, now)) == info`). If the real conversion drops or rewrites a field, only the weaker fact holds: a get after a save returns `Success(toDomainModel(fromDomainModel(info, now)))`.
- The pager's `pageSize = 20` is library configuration: `QuestionsPaging.Load` is modelled for any `loadSize`, which it passes on as the request's `limit`.
- Row contents other than the username and `lastFetchTime` are carried as one opaque column string. `acRate` is carried as its 64-bit pattern and never computed on.
- `System.currentTimeMillis()` is the `now` parameter of `SaveUserInfo`. Logging is dropped.
- Exceptions are reduced to their nullable messages. Paging's `LoadResult.Error` keeps only the exception's message.
- Paging's `closestPageToPosition` is library code. It is a function field of `PagingState`.
- Query documents are opaque tags. Only their operation names and declared variables are modelled.
- QuestionsPaging.FilterByDifficulty: case-insensitive equality folds the ASCII letters only. Kotlin's `equals(ignoreCase = true)` also folds non-ASCII letters, and those case mappings are not modelled.
