/**
 * The product-insights hook: the fetch action's state machine over the
 * loading flag, the error text and the payload, and the data-presence
 * predicates the home page reads.
 */
module ProductInsights {
  import opened Wrappers
  import opened NewsModel

  const FAILED_RESPONSE_TEXT: string := "获取新闻数据失败"
  const FAILED_FETCH_TEXT: string := "获取产品资讯数据失败"

  /** How the awaited `getNews` call ends. */
  datatype FetchOutcome =
    | Responded(success: bool, data: NewsResponse, message: Option<string>)
    | Threw(thrownMessage: Option<string>)

  /** The payload stored when a fetch fails: three empty lists. */
  const EMPTY_INSIGHTS: NewsResponse := NewsResponse([], [], [])

  /** `hasData`: a payload with at least one non-empty category. */
  predicate HasData(insights: Option<NewsResponse>)
  {
    insights.Some? && (|insights.value.newProducts| > 0 || |insights.value.reddits| > 0 || |insights.value.trendings| > 0)
  }

  predicate HasNewProducts(insights: Option<NewsResponse>)
  {
    insights.Some? && |insights.value.newProducts| > 0
  }

  predicate HasReddits(insights: Option<NewsResponse>)
  {
    insights.Some? && |insights.value.reddits| > 0
  }

  predicate HasTrendings(insights: Option<NewsResponse>)
  {
    insights.Some? && |insights.value.trendings| > 0
  }

  /** Data presence is exactly presence in one of the three categories. */
  lemma HasDataIsAnyCategory(insights: Option<NewsResponse>)
    ensures HasData(insights) <==> HasNewProducts(insights) || HasReddits(insights) || HasTrendings(insights)
  {
  }

  /** The failure payload has no data in any category. */
  lemma EmptyInsightsHasNoData()
    ensures !HasData(Some(EMPTY_INSIGHTS))
    ensures !HasNewProducts(Some(EMPTY_INSIGHTS)) && !HasReddits(Some(EMPTY_INSIGHTS)) && !HasTrendings(Some(EMPTY_INSIGHTS))
  {
  }

  /** Whether the fetch ends in the catch block. */
  predicate Fails(outcome: FetchOutcome)
  {
    outcome.Threw? || !outcome.success
  }

  /**
   * The error text the catch block stores: the message of the error thrown
   * for an unsuccessful response (its own message, else the first fallback),
   * or the thrown error's message, else the second fallback.
   */
  function FailureText(outcome: FetchOutcome): (r: string)
    requires Fails(outcome)
    ensures r != ""
  {
    match outcome
    case Responded(_, _, message) => OrElse(Some(OrElse(message, FAILED_RESPONSE_TEXT)), FAILED_FETCH_TEXT)
    case Threw(message) => OrElse(message, FAILED_FETCH_TEXT)
  }

  /**
   * The thrown error of an unsuccessful response always carries a non-empty
   * message, so the second fallback is only seen for exceptions.
   */
  lemma FailureTextChoice(outcome: FetchOutcome)
    requires Fails(outcome)
    ensures outcome.Responded? ==> FailureText(outcome) == OrElse(outcome.message, FAILED_RESPONSE_TEXT)
    ensures outcome.Responded? && !Truthy(outcome.message) ==> FailureText(outcome) == FAILED_RESPONSE_TEXT
    ensures outcome.Threw? && !Truthy(outcome.thrownMessage) ==> FailureText(outcome) == FAILED_FETCH_TEXT
    ensures outcome.Threw? && Truthy(outcome.thrownMessage) ==> FailureText(outcome) == outcome.thrownMessage.value
  {
  }

  /** The hook's slice of the app store. */
  class InsightsState {
    var productInsights: Option<NewsResponse>
    var loading: bool
    var error: Option<string>

    constructor ()
      ensures productInsights == None && !loading && error == None
    {
      productInsights, loading, error := None, false, None;
    }

    /**
     * `fetchProductInsights`: loading goes up and the error is cleared before
     * the call (`loadingDuringCall` and `errorDuringCall` report that state);
     * a successful response stores its data; any failure stores the error
     * text and the empty payload; loading is down afterwards in every case.
     */
    method Fetch(outcome: FetchOutcome) returns (loadingDuringCall: bool, errorDuringCall: Option<string>)
      modifies this
      ensures loadingDuringCall && errorDuringCall == None
      ensures !loading
      ensures !Fails(outcome) ==> productInsights == Some(outcome.data) && error == None
      ensures Fails(outcome) ==> productInsights == Some(EMPTY_INSIGHTS) && error == Some(FailureText(outcome))
      ensures Fails(outcome) ==> !HasData(productInsights) && Truthy(error)
    {
      loading := true;
      error := None;
      loadingDuringCall, errorDuringCall := loading, error;
      if outcome.Responded? && outcome.success {
        productInsights := Some(outcome.data);
      } else {
        var thrown := if outcome.Responded? then Some(OrElse(outcome.message, FAILED_RESPONSE_TEXT)) else outcome.thrownMessage;
        error := Some(OrElse(thrown, FAILED_FETCH_TEXT));
        productInsights := Some(EMPTY_INSIGHTS);
      }
      loading := false;
    }
  }
}
