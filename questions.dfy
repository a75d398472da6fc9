/** The problem-list records returned by the remote problem query, and the view model's filter pair. */
module Questions {
  import opened Wrappers
  import opened KotlinInt

  /** A `Double` carried as its IEEE-754 bit pattern; the core never computes on it. */
  datatype Float64 = Float64(bits: bv64)

  datatype Question = Question(
    id: Int32,
    titleSlug: string,
    title: string,
    difficulty: string,
    paidOnly: bool,
    acRate: Float64)

  datatype ProblemsetQuestionListV2 = ProblemsetQuestionListV2(
    questions: seq<Question>,
    totalLength: Int32,
    hasMore: bool)

  datatype Data = Data(problemsetQuestionListV2: Option<ProblemsetQuestionListV2>)

  datatype QuestionListResponse = QuestionListResponse(data: Option<Data>)

  /** The derived search/filter pair that decides when a new pager is built. */
  datatype SearchFilterParams = SearchFilterParams(query: string, difficulty: Option<string>)

  /**
   * `response.data?.problemsetQuestionListV2?.questions ?: emptyList()`: the
   * questions of a response, empty when either nullable level is missing.
   */
  function QuestionsOf(response: QuestionListResponse): (qs: seq<Question>)
    ensures response.data.None? ==> qs == []
    ensures response.data.Some? && response.data.value.problemsetQuestionListV2.None? ==> qs == []
    ensures response.data.Some? && response.data.value.problemsetQuestionListV2.Some? ==>
              qs == response.data.value.problemsetQuestionListV2.value.questions
  {
    match response.data
    case None => []
    case Some(d) =>
      match d.problemsetQuestionListV2
      case None => []
      case Some(list) => list.questions
  }
}
