/**
 * The running service: the process-wide fault flags, the two gauges and the
 * two labelled counters are fields of one object, and the handlers update
 * them in place. The random draws, the trace id and a library failure on the
 * success path are inputs.
 */
module Service {
  import opened Wrappers
  import opened Counters
  import opened Health
  import opened Orders
  import opened Requests

  class App {
    var dbConnected: bool
    var thirdPartyApiAvailable: bool
    /** `db_active_connections`. */
    var dbGauge: int
    /** `third_party_api_failures`. */
    var thirdPartyGauge: int
    /** `app_errors_total`, by `(error_type, endpoint)`. */
    var errorCounts: ErrorCounts
    /** `http_requests_total`, by `(method, endpoint, status)`. */
    var requestCounts: RequestCounts

    /** Process start: both dependencies up, gauges at zero, no counter child yet. */
    constructor ()
      ensures Flags() == Initial
      ensures dbGauge == 0 && thirdPartyGauge == 0
      ensures errorCounts == map[] && requestCounts == map[]
    {
      dbConnected, thirdPartyApiAvailable := true, true;
      dbGauge, thirdPartyGauge := 0, 0;
      errorCounts, requestCounts := map[], map[];
    }

    function Flags(): FaultState
      reads this
    {
      FaultState(dbConnected, thirdPartyApiAvailable)
    }

    /** The gauges show the current flags (true after every health check). */
    ghost predicate GaugesCurrent()
      reads this
    {
      dbGauge == DbGauge(Flags()) && thirdPartyGauge == ThirdPartyGauge(Flags())
    }

    /**
     * `/health`: toggle each flag whose draw fired, set both gauges from the
     * new flags, and report on the new flags. No counter changes.
     */
    method Health(flipDb: bool, flipApi: bool) returns (body: HealthBody)
      modifies this`dbConnected, this`thirdPartyApiAvailable, this`dbGauge, this`thirdPartyGauge
      ensures Flags() == Flip(old(Flags()), flipDb, flipApi)
      ensures GaugesCurrent()
      ensures body == Report(Flags())
      ensures body.status == Degraded <==> !dbConnected || !thirdPartyApiAvailable
      ensures errorCounts == old(errorCounts) && requestCounts == old(requestCounts)
    {
      if flipDb {
        dbConnected := !dbConnected;
      }
      if flipApi {
        thirdPartyApiAvailable := !thirdPartyApiAvailable;
      }
      dbGauge := DbGauge(Flags());
      thirdPartyGauge := ThirdPartyGauge(Flags());
      body := Report(Flags());
    }

    /**
     * `/process_order`: classify the order by the decision table on the
     * current flags, increment the failure's error counter child once, and
     * respond. Only reads the flags.
     */
    method ProcessOrder(orderIdArg: Option<string>, errorArg: Option<string>, traceId: string,
                        libraryFault: bool) returns (response: Response)
      modifies this`errorCounts
      ensures var orderId := OrderIdOrDefault(orderIdArg);
              var outcome := Classify(orderId, errorArg, Flags(), libraryFault);
              response == Respond(outcome, orderId, traceId) &&
              errorCounts == RecordFailure(old(errorCounts), outcome)
      ensures Flags() == old(Flags())
      ensures requestCounts == old(requestCounts)
    {
      var orderId := OrderIdOrDefault(orderIdArg);
      var outcome := Classify(orderId, errorArg, Flags(), libraryFault);
      if outcome.Failed? {
        errorCounts := Inc(errorCounts, ErrorKey(outcome.error));
      }
      response := Respond(outcome, orderId, traceId);
    }

    /** The after-request hook: count the finished request under its labels. */
    method AfterRequest(httpMethod: string, endpoint: Option<string>, code: nat)
      modifies this`requestCounts
      ensures requestCounts == RecordRequest(old(requestCounts), httpMethod, endpoint, code)
      ensures Flags() == old(Flags()) && errorCounts == old(errorCounts)
    {
      requestCounts := Inc(requestCounts, RequestKey(httpMethod, endpoint, code));
    }

    /**
     * One whole `/health` request routed to its view (the route accepts GET
     * and HEAD): the handler, then the after-request hook with status 200.
     */
    method ServeHealth(httpMethod: string, flipDb: bool, flipApi: bool) returns (code: nat, body: HealthBody)
      requires httpMethod == "GET" || httpMethod == "HEAD"
      modifies this
      ensures Flags() == Flip(old(Flags()), flipDb, flipApi) && GaugesCurrent()
      ensures code == 200 && body == Report(Flags())
      ensures requestCounts == RecordRequest(old(requestCounts), httpMethod, Some("health"), 200)
      ensures errorCounts == old(errorCounts)
    {
      body := Health(flipDb, flipApi);
      code := 200;
      AfterRequest(httpMethod, Some("health"), code);
    }

    /**
     * One whole `/process_order` request routed to its view (the route accepts
     * GET and HEAD): the handler, then the after-request hook with the
     * handler's status. The flags and the gauges are unchanged.
     */
    method ServeProcessOrder(httpMethod: string, orderIdArg: Option<string>, errorArg: Option<string>,
                             traceId: string, libraryFault: bool) returns (response: Response)
      requires httpMethod == "GET" || httpMethod == "HEAD"
      modifies this
      ensures Flags() == old(Flags())
      ensures dbGauge == old(dbGauge) && thirdPartyGauge == old(thirdPartyGauge)
      ensures var orderId := OrderIdOrDefault(orderIdArg);
              var outcome := Classify(orderId, errorArg, Flags(), libraryFault);
              response == Respond(outcome, orderId, traceId) &&
              errorCounts == RecordFailure(old(errorCounts), outcome)
      ensures requestCounts == RecordRequest(old(requestCounts), httpMethod, Some(Endpoint), response.code)
    {
      response := ProcessOrder(orderIdArg, errorArg, traceId, libraryFault);
      AfterRequest(httpMethod, Some(Endpoint), response.code);
    }
  }
}
