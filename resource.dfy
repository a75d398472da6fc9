/**
 * The outcome type every cache and network operation returns: a value is in
 * exactly one of three states, Success, Error or Loading.
 */
module Resources {
  import opened Wrappers

  /**
   * `Resource<T>`. Success always carries its payload; Error carries a message and
   * possibly a payload; Loading possibly a payload. There is no staleness flag.
   */
  datatype Resource<+T> =
    | Success(successData: T)
    | Error(errorMessage: string, errorData: Option<T>)
    | Loading(loadingData: Option<T>)
  {
    /** The base class's nullable `data` property. */
    function Data(): Option<T> {
      match this
      case Success(d) => Some(d)
      case Error(_, d) => d
      case Loading(d) => d
    }

    /** The base class's nullable `message` property (only Error passes one up). */
    function Message(): Option<string> {
      if Error? then Some(errorMessage) else None
    }

    predicate IsSuccess() { Success? }

    predicate IsError() { Error? }

    predicate IsLoading() { Loading? }

    /** `getSuccessData()`: the payload of a Success, null for the other two states even when they carry data. */
    function GetSuccessData(): (r: Option<T>)
      ensures r.Some? <==> IsSuccess()
      ensures r.Some? ==> r == Data()
    {
      if Success? then Some(successData) else None
    }

    /** `getErrorMessage()`: the message of an Error, null otherwise. */
    function GetErrorMessage(): (r: Option<string>)
      ensures r.Some? <==> IsError()
      ensures r.Some? ==> r.value == errorMessage
    {
      if Error? then Some(errorMessage) else None
    }

    /**
     * `onSuccess(action)`: returns the receiver; `calls` lists the arguments the
     * action was invoked with (the payload once on Success, nothing otherwise).
     */
    function OnSuccess(): (t: Tap<T, T>)
      ensures t.receiver == this
      ensures t.calls == if IsSuccess() then [successData] else []
    {
      Tap(this, if Success? then [successData] else [])
    }

    /** `onError(action)`: returns the receiver; the action sees the message once on Error. */
    function OnError(): (t: Tap<T, string>)
      ensures t.receiver == this
      ensures t.calls == if IsError() then [errorMessage] else []
    {
      Tap(this, if Error? then [errorMessage] else [])
    }

    /** `onLoading(action)`: returns the receiver; the action runs once on Loading. */
    function OnLoading(): (t: Tap<T, ()>)
      ensures t.receiver == this
      ensures |t.calls| == if IsLoading() then 1 else 0
    {
      Tap(this, if Loading? then [()] else [])
    }

    /**
     * `map(transform)`: the same state and message, with the payload (when there
     * is one) transformed; an absent payload stays absent.
     */
    function Map<U>(f: T -> U): (r: Resource<U>)
      ensures r.IsSuccess() == IsSuccess() && r.IsError() == IsError() && r.IsLoading() == IsLoading()
      ensures r.Message() == Message()
      ensures r.Data() == Data().Map(f)
    {
      match this
      case Success(d) => Success(f(d))
      case Error(m, d) => Error(m, d.Map(f))
      case Loading(d) => Loading(d.Map(f))
    }
  }

  /** What a tap returns (`receiver`) and the arguments its action was called with (`calls`). */
  datatype Tap<+T, +A> = Tap(receiver: Resource<T>, calls: seq<A>)

  /** Exactly one of the three state predicates holds. */
  lemma ExactlyOneState<T>(r: Resource<T>)
    ensures (if r.IsSuccess() then 1 else 0) + (if r.IsError() then 1 else 0) + (if r.IsLoading() then 1 else 0) == 1
  {
  }

  /** Chaining the three taps returns the receiver and fires exactly one action. */
  lemma TapChainFiresOnce<T>(r: Resource<T>)
    ensures r.OnSuccess().receiver.OnError().receiver.OnLoading().receiver == r
    ensures |r.OnSuccess().calls| + |r.OnError().calls| + |r.OnLoading().calls| == 1
  {
  }

  /** Error and Loading never pretend to be a Success, whatever data they carry. */
  lemma SuccessDataOnlyFromSuccess<T>(r: Resource<T>)
    ensures r.GetSuccessData().None? <==> (r.IsError() || r.IsLoading())
    ensures r.IsSuccess() ==> r.GetSuccessData() == Some(r.successData)
  {
  }

  /** `map` with the identity function is the identity. */
  lemma MapIdentity<T>(r: Resource<T>)
    ensures r.Map(x => x) == r
  {
    match r
    case Success(_) =>
    case Error(_, d) => assert d.Map(x => x) == d;
    case Loading(d) => assert d.Map(x => x) == d;
  }

  /** `map` composes: mapping `f` then `g` is mapping their composition. */
  lemma MapComposition<T, U, V>(r: Resource<T>, f: T -> U, g: U -> V)
    ensures r.Map(f).Map(g) == r.Map(x => g(f(x)))
  {
    match r
    case Success(_) =>
    case Error(_, d) => assert d.Map(f).Map(g) == d.Map(x => g(f(x)));
    case Loading(d) => assert d.Map(f).Map(g) == d.Map(x => g(f(x)));
  }
}
