/**
 * The API debug page: the status colour bands and the busy flag that the two
 * debug actions raise around their awaited calls. The network exchanges the
 * calls make are inputs.
 */
module ApiDebugPage {
  import opened Wrappers
  import ApiDebugger
  import EnvConfig

  const GREEN: string := "text-green-600"
  const YELLOW: string := "text-yellow-600"
  const RED: string := "text-red-600"
  const GRAY: string := "text-gray-600"

  /** `getStatusColor(status)`. */
  function StatusColor(status: int): string
  {
    if 200 <= status < 300 then GREEN
    else if 300 <= status < 400 then YELLOW
    else if status >= 400 then RED
    else GRAY
  }

  /**
   * The bands: 2xx green, 3xx yellow, 400 and above red, everything else
   * (below 200, status 0 from a network error included) gray; every status
   * gets exactly one of the four colours.
   */
  lemma StatusColorBands(status: int)
    ensures StatusColor(status) == GREEN <==> 200 <= status < 300
    ensures StatusColor(status) == YELLOW <==> 300 <= status < 400
    ensures StatusColor(status) == RED <==> status >= 400
    ensures StatusColor(status) == GRAY <==> status < 200
    ensures StatusColor(status) in {GREEN, YELLOW, RED, GRAY}
  {
  }

  /** The page's state. */
  class DebugPage {
    var isDebugging: bool
    var debugResults: Option<ApiDebugger.Results>
    var customUrl: string
    var customResult: Option<ApiDebugger.DebugResult>

    constructor ()
      ensures !isDebugging && debugResults.None? && customUrl == "" && customResult.None?
    {
      isDebugging := false;
      debugResults := None;
      customUrl := "";
      customResult := None;
    }

    /** The URL input's change handler. */
    method SetCustomUrl(url: string)
      modifies this`customUrl
      ensures customUrl == url
    {
      customUrl := url;
    }

    /**
     * `handleDebugProject`: runs `debugProjectApis` under the build variables
     * `vars`, the request to the i-th project endpoint going as `exchange(i)`. Reports the flag as
     * it stood while the call was awaited; the flag is down afterwards. The
     * batch never rejects, so the results are always stored.
     */
    method HandleDebugProject(vars: EnvConfig.EnvVars, exchange: nat -> ApiDebugger.Exchange) returns (busyDuringCall: bool)
      modifies this`isDebugging, this`debugResults
      ensures busyDuringCall
      ensures !isDebugging
      ensures debugResults == Some(ApiDebugger.Aggregate(ApiDebugger.ProjectEndpoints(ApiDebugger.ProjectBaseUrl(vars)), ApiDebugger.BatchProbe(exchange)))
    {
      isDebugging := true;
      busyDuringCall := isDebugging;
      var results, _ := ApiDebugger.DebugProjectApis(vars, exchange);
      debugResults := Some(results);
      isDebugging := false;
    }

    /**
     * `handleDebugCustomUrl`: with an empty URL nothing happens and no request
     * is made (`started` is false); otherwise the URL is probed with the
     * default method (`observed`, `outcome` and the clock readings describe the
     * exchange), the result stored, and the flag raised around the call.
     */
    method HandleDebugCustomUrl(observed: seq<ApiDebugger.Observed>, outcome: ApiDebugger.RequestOutcome, startTime: int, endTime: int)
      returns (started: bool, busyDuringCall: bool)
      modifies this`isDebugging, this`customResult
      ensures started <==> customUrl != ""
      ensures !started ==> isDebugging == old(isDebugging) && customResult == old(customResult) && !busyDuringCall
      ensures started ==> busyDuringCall && !isDebugging
      ensures started ==> customResult == Some(ApiDebugger.EndpointResult(customUrl, None, observed, outcome, endTime - startTime))
    {
      if customUrl == "" {
        return false, false;
      }
      started := true;
      isDebugging := true;
      busyDuringCall := isDebugging;
      var result := ApiDebugger.DebugEndpoint(customUrl, None, observed, outcome, startTime, endTime);
      customResult := Some(result);
      isDebugging := false;
    }
  }
}
