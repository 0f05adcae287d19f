/**
 * The three fetch adapters of app1.py. Each wraps one provider call and
 * turns an exception, and for two of them an empty payload, into an error
 * marker `{"error": message}`; otherwise it hands the payload on unchanged.
 * The provider call itself is network I/O and appears here only as its
 * outcome.
 */
module Adapters {
  import opened PyJson

  /** What one provider call did: returned a decoded payload, or raised with message `str(e)`. */
  datatype Outcome = Returned(payload: Json) | Failed(message: string)

  const ProfileErrorPrefix: string := "Error fetching company profile: "
  const NoMetricsMessage: string := "No metrics available for this ticker"
  const NoRecommendationsMessage: string := "No recommendations available"

  function ErrorMarker(message: string): (r: Json)
    ensures r.JObj? && Keys(r.fields) == ["error"]
    ensures Get(r.fields, "error") == Some(JStr(message))
  {
    JObj([("error", JStr(message))])
  }

  /** The test each tab makes of a fetch result: a dict with an "error" key. */
  predicate IsErrorMarker(v: Json)
  {
    v.JObj? && "error" in Keys(v.fields)
  }

  /** fetch_company_profile: pass the profile through, or report the exception. */
  function FetchCompanyProfile(call: Outcome): (r: Json)
    ensures call.Failed? ==> IsErrorMarker(r) && Get(r.fields, "error") == Some(JStr(ProfileErrorPrefix + call.message))
    ensures call.Returned? ==> r == call.payload
    ensures IsErrorMarker(r) <==> call.Failed? || IsErrorMarker(call.payload)
  {
    match call
    case Returned(profile) => profile
    case Failed(message) => ErrorMarker(ProfileErrorPrefix + message)
  }

  /**
   * fetch_detailed_metrics: the "metric" entry of the basic-financials
   * response when it is present and non-empty. For any other response the
   * result is still an error marker: a scalar makes `in` raise a TypeError,
   * which the adapter catches; a list or a string without "metric" in it
   * takes the "No metrics available" branch; and one with "metric" in it
   * makes the subscript raise a TypeError, which is caught too.
   */
  function FetchDetailedMetrics(call: Outcome): (r: Json)
    ensures Truthy(r)
    ensures call.Failed? ==> r == ErrorMarker(call.message)
    ensures call.Returned? && call.payload.JObj? ==>
      var metric := Get(call.payload.fields, "metric");
      r == if metric.Some? && Truthy(metric.value) then metric.value else ErrorMarker(NoMetricsMessage)
    ensures call.Returned? && !call.payload.JObj? ==> IsErrorMarker(r)
    ensures !IsErrorMarker(r) ==>
      call.Returned? && call.payload.JObj? && Get(call.payload.fields, "metric") == Some(r)
  {
    match call
    case Failed(message) => ErrorMarker(message)
    case Returned(metrics) =>
      match Contains(metrics, "metric")
      case Raise(e) => ErrorMarker(e)
      case Ok(false) => ErrorMarker(NoMetricsMessage)
      case Ok(true) =>
        match Subscript(metrics, "metric")
        case Raise(e) => ErrorMarker(e)
        case Ok(metric) => if Truthy(metric) then metric else ErrorMarker(NoMetricsMessage)
  }

  /** fetch_recommendations: the trend records, unless there are none. */
  function FetchRecommendations(call: Outcome): (r: Json)
    ensures Truthy(r)
    ensures call.Failed? ==> r == ErrorMarker(call.message)
    ensures call.Returned? && !Truthy(call.payload) ==> r == ErrorMarker(NoRecommendationsMessage)
    ensures call.Returned? && Truthy(call.payload) ==> r == call.payload
  {
    match call
    case Failed(message) => ErrorMarker(message)
    case Returned(recommendations) =>
      if !Truthy(recommendations) then ErrorMarker(NoRecommendationsMessage) else recommendations
  }
}
