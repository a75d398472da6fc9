/**
 * The GraphQL request builders: each turns its arguments into a
 * `{query, operationName, variables}` record. Query documents are opaque
 * tags; only their operation names and declared variables are modelled.
 */
module GraphqlQuery {
  import opened Wrappers
  import opened KotlinInt

  /** The values the builders put into `variables`. */
  datatype Value = IntValue(i: Int32) | StringValue(s: string)

  /** The query documents, one constant per builder. */
  datatype QueryDocument =
    | UserExistsQuery
    | UserQuestionCountQuery
    | CurrentDataQuery
    | UserProfileCalenderQuery
    | UserContestRankingQuery
    | RecentAcSubmissionsQuery
    | ContestRatingHistogramQuery
    | UserBadgesQuery
    | ProblemsetQuestionListQuery

  /**
   * The JSON request body. A `put(key, null)` on an org.json object removes the
   * key, so a null variable is an absent key here.
   */
  datatype JsonRequest = JsonRequest(query: QueryDocument, operationName: string, variables: map<string, Value>)

  datatype VariableType = IntType | StringType

  /** A variable declared in a document's header: its type and whether it is non-null (`!`). */
  datatype Declaration = Declaration(kind: VariableType, required: bool)

  /** The operation name in each document's `query <name>(...)` header. */
  function DeclaredOperation(doc: QueryDocument): string {
    match doc
    case UserExistsQuery => "userInfo"
    case UserQuestionCountQuery => "userSessionProgress"
    case CurrentDataQuery => "currentTimestamp"
    case UserProfileCalenderQuery => "userProfileCalendar"
    case UserContestRankingQuery => "userContestRankingInfo"
    case RecentAcSubmissionsQuery => "recentAcSubmissions"
    case ContestRatingHistogramQuery => "contestRatingHistogram"
    case UserBadgesQuery => "userBadges"
    case ProblemsetQuestionListQuery => "problemsetQuestionListV2"
  }

  /** The variables each document's header declares. */
  function DeclaredVariables(doc: QueryDocument): map<string, Declaration> {
    match doc
    case UserExistsQuery => map["username" := Declaration(StringType, true)]
    case UserQuestionCountQuery => map["username" := Declaration(StringType, true)]
    case CurrentDataQuery => map[]
    case UserProfileCalenderQuery =>
      map["username" := Declaration(StringType, true), "year" := Declaration(IntType, false)]
    case UserContestRankingQuery => map["username" := Declaration(StringType, true)]
    case RecentAcSubmissionsQuery =>
      map["username" := Declaration(StringType, true), "limit" := Declaration(IntType, true)]
    case ContestRatingHistogramQuery => map[]
    case UserBadgesQuery => map["username" := Declaration(StringType, true)]
    case ProblemsetQuestionListQuery =>
      map["limit" := Declaration(IntType, false), "skip" := Declaration(IntType, false),
          "searchKeyword" := Declaration(StringType, false), "categorySlug" := Declaration(StringType, false)]
  }

  function TypeOf(v: Value): VariableType {
    if v.IntValue? then IntType else StringType
  }

  /**
   * A request the server can accept: the operation name is the document's, every
   * variable is declared with its type, and every non-null variable is present.
   */
  ghost predicate Conforms(r: JsonRequest) {
    var decl := DeclaredVariables(r.query);
    && r.operationName == DeclaredOperation(r.query)
    && (forall k :: k in r.variables ==> k in decl && decl[k].kind == TypeOf(r.variables[k]))
    && (forall k :: k in decl && decl[k].required ==> k in r.variables)
  }

  /** The category slug the problems request leaves out, as if no category were given. */
  const AllCodeQuestions: string := "all-code-questions"

  /** `getUserExistsJsonRequest`: the `userInfo` document, sending the username only. */
  function UserExistsJsonRequest(username: string): (r: JsonRequest)
    ensures r.query == UserExistsQuery && r.operationName == "userInfo"
    ensures r.variables.Keys == {"username"} && r.variables["username"] == StringValue(username)
  {
    JsonRequest(UserExistsQuery, "userInfo", map["username" := StringValue(username)])
  }

  /** `getUserQuestionCountJsonRequest`: the `userSessionProgress` document, sending the username only. */
  function UserQuestionCountJsonRequest(username: string): (r: JsonRequest)
    ensures r.query == UserQuestionCountQuery && r.operationName == "userSessionProgress"
    ensures r.variables.Keys == {"username"} && r.variables["username"] == StringValue(username)
  {
    JsonRequest(UserQuestionCountQuery, "userSessionProgress", map["username" := StringValue(username)])
  }

  /** `getCurrentDataJsonRequest`: the `currentTimestamp` document, with no variables. */
  function CurrentDataJsonRequest(): (r: JsonRequest)
    ensures r.query == CurrentDataQuery && r.operationName == "currentTimestamp"
    ensures r.variables == map[]
  {
    JsonRequest(CurrentDataQuery, "currentTimestamp", map[])
  }

  /** `getUserProfileCalendarJsonRequest`: `year` is put only when one is given. */
  function UserProfileCalendarJsonRequest(username: string, year: Option<Int32> := None): (r: JsonRequest)
    ensures r.query == UserProfileCalenderQuery && r.operationName == "userProfileCalendar"
    ensures r.variables.Keys == if year.Some? then {"username", "year"} else {"username"}
    ensures r.variables["username"] == StringValue(username)
    ensures year.Some? ==> r.variables["year"] == IntValue(year.value)
  {
    var variables := map["username" := StringValue(username)];
    JsonRequest(UserProfileCalenderQuery, "userProfileCalendar",
                if year.Some? then variables["year" := IntValue(year.value)] else variables)
  }

  /** `getUserContestRankingJsonRequest`: the `userContestRankingInfo` document, sending the username only. */
  function UserContestRankingJsonRequest(username: string): (r: JsonRequest)
    ensures r.query == UserContestRankingQuery && r.operationName == "userContestRankingInfo"
    ensures r.variables.Keys == {"username"} && r.variables["username"] == StringValue(username)
  {
    JsonRequest(UserContestRankingQuery, "userContestRankingInfo", map["username" := StringValue(username)])
  }

  /** `getRecentAcSubmissionsJsonRequest`: `limit` defaults to 15; a null limit is not put. */
  function RecentAcSubmissionsJsonRequest(username: string, limit: Option<Int32> := Some(15)): (r: JsonRequest)
    ensures r.query == RecentAcSubmissionsQuery && r.operationName == "recentAcSubmissions"
    ensures r.variables.Keys == if limit.Some? then {"username", "limit"} else {"username"}
    ensures r.variables["username"] == StringValue(username)
    ensures limit.Some? ==> r.variables["limit"] == IntValue(limit.value)
  {
    var variables := map["username" := StringValue(username)];
    JsonRequest(RecentAcSubmissionsQuery, "recentAcSubmissions",
                if limit.Some? then variables["limit" := IntValue(limit.value)] else variables)
  }

  /** `getContestRatingHistogramJsonRequest`: the `contestRatingHistogram` document, with no variables. */
  function ContestRatingHistogramJsonRequest(): (r: JsonRequest)
    ensures r.query == ContestRatingHistogramQuery && r.operationName == "contestRatingHistogram"
    ensures r.variables == map[]
  {
    JsonRequest(ContestRatingHistogramQuery, "contestRatingHistogram", map[])
  }

  /** `getUserBadgesJsonRequest`: the `userBadges` document, sending the username only. */
  function UserBadgesJsonRequest(username: string): (r: JsonRequest)
    ensures r.query == UserBadgesQuery && r.operationName == "userBadges"
    ensures r.variables.Keys == {"username"} && r.variables["username"] == StringValue(username)
  {
    JsonRequest(UserBadgesQuery, "userBadges", map["username" := StringValue(username)])
  }

  /**
   * `getProblemsJsonRequest`: `skip` is `page * limit` in 32-bit arithmetic, an
   * empty keyword is sent as null (absent), and the category slug is sent only
   * when it is neither empty nor the all-questions slug.
   */
  function ProblemsJsonRequest(page: Int32, limit: Int32, searchKeyword: string := "", categorySlug: string := ""): (r: JsonRequest)
    ensures r.query == ProblemsetQuestionListQuery && r.operationName == "problemsetQuestionListV2"
    ensures "limit" in r.variables && r.variables["limit"] == IntValue(limit)
    ensures "skip" in r.variables && r.variables["skip"] == IntValue(Mul(page, limit))
    ensures ("searchKeyword" in r.variables) == (searchKeyword != "")
    ensures "searchKeyword" in r.variables ==> r.variables["searchKeyword"] == StringValue(searchKeyword)
    ensures ("categorySlug" in r.variables) == (categorySlug != "" && categorySlug != AllCodeQuestions)
    ensures "categorySlug" in r.variables ==> r.variables["categorySlug"] == StringValue(categorySlug)
    ensures r.variables.Keys <= {"limit", "skip", "searchKeyword", "categorySlug"}
  {
    var skip := Mul(page, limit);
    var base := map["limit" := IntValue(limit), "skip" := IntValue(skip)];
    var withKeyword := if searchKeyword == "" then base else base["searchKeyword" := StringValue(searchKeyword)];
    var variables :=
      if categorySlug != "" && categorySlug != AllCodeQuestions
      then withKeyword["categorySlug" := StringValue(categorySlug)]
      else withKeyword;
    JsonRequest(ProblemsetQuestionListQuery, "problemsetQuestionListV2", variables)
  }

  /** Every per-user builder sends exactly `username`, under its own document's operation name. */
  lemma PerUserRequestsCarryOnlyUsername(username: string)
    ensures forall r | r in [UserExistsJsonRequest(username), UserQuestionCountJsonRequest(username),
                             UserContestRankingJsonRequest(username), UserBadgesJsonRequest(username)] ::
              r.variables == map["username" := StringValue(username)] && Conforms(r)
  {
  }

  /** The timestamp and histogram requests have no variables. */
  lemma NoArgumentRequestsHaveNoVariables()
    ensures CurrentDataJsonRequest().variables == map[] && Conforms(CurrentDataJsonRequest())
    ensures ContestRatingHistogramJsonRequest().variables == map[] && Conforms(ContestRatingHistogramJsonRequest())
  {
  }

  /** Every problems request, whatever its arguments, matches its document's header. */
  lemma ProblemsRequestConforms(page: Int32, limit: Int32, searchKeyword: string, categorySlug: string)
    ensures Conforms(ProblemsJsonRequest(page, limit, searchKeyword, categorySlug))
  {
    var r := ProblemsJsonRequest(page, limit, searchKeyword, categorySlug);
    var decl := DeclaredVariables(ProblemsetQuestionListQuery);
    forall k | k in r.variables ensures k in decl && decl[k].kind == TypeOf(r.variables[k]) {
      assert k in {"limit", "skip", "searchKeyword", "categorySlug"};
    }
  }

  /** Without overflow, `skip` is exactly `page * limit`: pages are `limit` questions apart. */
  lemma ProblemsSkipIsPageTimesLimit(page: Int32, limit: Int32, searchKeyword: string, categorySlug: string)
    requires MinValue <= page * limit <= MaxValue
    ensures ProblemsJsonRequest(page, limit, searchKeyword, categorySlug).variables["skip"] == IntValue(page * limit)
  {
  }

  /** The calendar request matches its header with or without a year. */
  lemma CalendarRequestConforms(username: string, year: Option<Int32>)
    ensures Conforms(UserProfileCalendarJsonRequest(username, year))
  {
  }

  /**
   * The recent-submissions request matches its header exactly when a limit is
   * given: the header declares `$limit: Int!`, so a null limit leaves a
   * required variable out.
   */
  lemma RecentSubmissionsConformsIffLimit(username: string, limit: Option<Int32>)
    ensures Conforms(RecentAcSubmissionsJsonRequest(username, limit)) <==> limit.Some?
  {
    var r := RecentAcSubmissionsJsonRequest(username, limit);
    if limit.None? {
      assert "limit" in DeclaredVariables(r.query) && "limit" !in r.variables;
    }
  }
}
