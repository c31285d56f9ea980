/**
 * The decision table of `/process_order`: validate the order id, consult the
 * fault flags and the `error` override, and either succeed or classify the
 * failure. The first condition that holds decides the outcome.
 */
module Orders {
  import opened Wrappers
  import opened Counters
  import opened Health

  /** The `error_type` label values of the `app_errors_total` counter. */
  datatype ErrorType = ValidationError | DatabaseConnectionError | ThirdPartyTimeout | UnexpectedError {

    function Label(): string {
      match this
      case ValidationError => "ValidationError"
      case DatabaseConnectionError => "DatabaseConnectionError"
      case ThirdPartyTimeout => "ThirdPartyTimeout"
      case UnexpectedError => "UnexpectedError"
    }

    /** The HTTP status of the response the handler returns for this failure. */
    function HttpStatus(): nat {
      match this
      case ValidationError => 400
      case DatabaseConnectionError => 503
      case ThirdPartyTimeout => 503
      case UnexpectedError => 500
    }

    /** The position of this failure's check in the handler; lower is checked first. */
    function Priority(): nat {
      match this
      case ValidationError => 0
      case DatabaseConnectionError => 1
      case ThirdPartyTimeout => 2
      case UnexpectedError => 3
    }
  }

  datatype Outcome = Processed | Failed(error: ErrorType)

  /** A response: HTTP status code and the JSON object of string fields it carries. */
  datatype Response = Response(code: nat, body: map<string, string>)

  /** The Flask endpoint name, used as the `endpoint` label. */
  const Endpoint := "process_order"
  const DefaultOrderId := "unknown"
  const DbOverride := "db"
  const ApiOverride := "api_timeout"

  type ErrorCounts = map<(string, string), nat>

  /** `request.args.get('order_id', 'unknown')`. */
  function OrderIdOrDefault(arg: Option<string>): string {
    arg.GetOr(DefaultOrderId)
  }

  /** `not order_id or order_id == "invalid"`. */
  predicate InvalidOrderId(orderId: string) {
    orderId == "" || orderId == "invalid"
  }

  /**
   * Whether the condition that raises `e` holds. `libraryFault` stands for a
   * library call on the success path (the simulated latency or the JSON
   * encoding) raising an exception nobody anticipated.
   */
  predicate Triggered(e: ErrorType, orderId: string, simulateError: Option<string>,
                      f: FaultState, libraryFault: bool)
  {
    match e
    case ValidationError => InvalidOrderId(orderId)
    case DatabaseConnectionError => !f.dbConnected || simulateError == Some(DbOverride)
    case ThirdPartyTimeout => !f.thirdPartyApiAvailable || simulateError == Some(ApiOverride)
    case UnexpectedError => libraryFault
  }

  /**
   * The outcome of one order. It fails with the first failure, in check order,
   * whose condition holds, and succeeds exactly when none holds.
   */
  function Classify(orderId: string, simulateError: Option<string>, f: FaultState,
                    libraryFault: bool): (o: Outcome)
    ensures o.Processed? ==> forall e: ErrorType :: !Triggered(e, orderId, simulateError, f, libraryFault)
    ensures o.Failed? ==> Triggered(o.error, orderId, simulateError, f, libraryFault)
    ensures o.Failed? ==> forall e: ErrorType :: e.Priority() < o.error.Priority() ==>
                            !Triggered(e, orderId, simulateError, f, libraryFault)
  {
    if InvalidOrderId(orderId) then Failed(ValidationError)
    else if !f.dbConnected || simulateError == Some(DbOverride) then Failed(DatabaseConnectionError)
    else if !f.thirdPartyApiAvailable || simulateError == Some(ApiOverride) then Failed(ThirdPartyTimeout)
    else if libraryFault then Failed(UnexpectedError)
    else Processed
  }

  /** The response the handler returns for `outcome`. */
  function Respond(outcome: Outcome, orderId: string, traceId: string): (r: Response)
    ensures r.code == 200 <==> outcome.Processed?
    ensures outcome.Processed? ==>
              r.body.Keys == {"trace_id", "order_id", "status"} &&
              r.body["trace_id"] == traceId && r.body["order_id"] == orderId &&
              r.body["status"] == "processed"
    ensures outcome.Failed? ==>
              r.code == outcome.error.HttpStatus() && "error" in r.body &&
              ("detail" in r.body <==> outcome.error != UnexpectedError) &&
              r.body.Keys <= {"error", "detail"}
  {
    match outcome
    case Processed =>
      Response(200, map["trace_id" := traceId, "order_id" := orderId, "status" := "processed"])
    case Failed(ValidationError) =>
      Response(400, map["error" := "Validation failed", "detail" := "Invalid order_id"])
    case Failed(DatabaseConnectionError) =>
      Response(503, map["error" := "Service unavailable", "detail" := "Failed to connect to database"])
    case Failed(ThirdPartyTimeout) =>
      Response(503, map["error" := "Service unavailable", "detail" := "Third-party API timeout after 5s"])
    case Failed(UnexpectedError) =>
      Response(500, map["error" := "Internal server error"])
  }

  /** The `(error_type, endpoint)` labels incremented for `e`. */
  function ErrorKey(e: ErrorType): (string, string) {
    (e.Label(), Endpoint)
  }

  /** Distinct failures are counted under distinct labels. */
  lemma ErrorKeyInjective(e1: ErrorType, e2: ErrorType)
    ensures ErrorKey(e1) == ErrorKey(e2) ==> e1 == e2
  {
  }

  /** The error counter after one order: one increment per failure, none on success. */
  function RecordFailure(m: ErrorCounts, outcome: Outcome): (r: ErrorCounts)
    ensures outcome.Processed? ==> r == m
    ensures outcome.Failed? ==> Count(r, ErrorKey(outcome.error)) == Count(m, ErrorKey(outcome.error)) + 1
    ensures outcome.Failed? ==> forall k :: k != ErrorKey(outcome.error) ==> Count(r, k) == Count(m, k)
  {
    match outcome
    case Processed => m
    case Failed(e) => Inc(m, ErrorKey(e))
  }

  // ---- The properties of the decision table, one per check ----

  /** An empty or `"invalid"` order id is rejected with 400, whatever the flags and the override. */
  lemma InvalidOrderRejected(orderId: string, simulateError: Option<string>, f: FaultState,
                             libraryFault: bool, traceId: string)
    requires InvalidOrderId(orderId)
    ensures Classify(orderId, simulateError, f, libraryFault) == Failed(ValidationError)
    ensures Respond(Classify(orderId, simulateError, f, libraryFault), orderId, traceId).code == 400
  {
  }

  /** With a valid id, a lost database or the `db` override gives 503, before any third-party check. */
  lemma DatabaseFailureFirst(orderId: string, simulateError: Option<string>, f: FaultState,
                             libraryFault: bool, traceId: string)
    requires !InvalidOrderId(orderId)
    requires !f.dbConnected || simulateError == Some(DbOverride)
    ensures Classify(orderId, simulateError, f, libraryFault) == Failed(DatabaseConnectionError)
    ensures Respond(Classify(orderId, simulateError, f, libraryFault), orderId, traceId).code == 503
  {
  }

  /** With a valid id and the database check passed, an unavailable API or the `api_timeout` override gives 503. */
  lemma ThirdPartyFailureSecond(orderId: string, simulateError: Option<string>, f: FaultState,
                                libraryFault: bool, traceId: string)
    requires !InvalidOrderId(orderId)
    requires f.dbConnected && simulateError != Some(DbOverride)
    requires !f.thirdPartyApiAvailable || simulateError == Some(ApiOverride)
    ensures Classify(orderId, simulateError, f, libraryFault) == Failed(ThirdPartyTimeout)
    ensures Respond(Classify(orderId, simulateError, f, libraryFault), orderId, traceId).code == 503
  {
  }

  /**
   * A valid order with both dependencies up, no recognised override and no
   * library failure is processed, echoing its order id and trace id.
   */
  lemma ValidOrderProcessed(orderId: string, simulateError: Option<string>, f: FaultState, traceId: string)
    requires !InvalidOrderId(orderId)
    requires f.dbConnected && f.thirdPartyApiAvailable
    requires simulateError != Some(DbOverride) && simulateError != Some(ApiOverride)
    ensures Classify(orderId, simulateError, f, false) == Processed
    ensures Respond(Processed, orderId, traceId).body["order_id"] == orderId
    ensures Respond(Processed, orderId, traceId).body["trace_id"] == traceId
  {
  }

  /** A missing `order_id` parameter defaults to `"unknown"`, which passes validation. */
  lemma MissingOrderIdPasses()
    ensures OrderIdOrDefault(None) == DefaultOrderId
    ensures !InvalidOrderId(OrderIdOrDefault(None))
  {
  }

  // ---- Batches of orders under one fault state ----

  /** The query parameters and the library-fault input of one `/process_order` request. */
  datatype OrderRequest = OrderRequest(orderIdArg: Option<string>, errorArg: Option<string>, libraryFault: bool)

  function OutcomeOf(f: FaultState, q: OrderRequest): Outcome {
    Classify(OrderIdOrDefault(q.orderIdArg), q.errorArg, f, q.libraryFault)
  }

  /** The error counter after the orders `qs`, handled in turn; orders never change the flags. */
  function ErrorsAfter(m: ErrorCounts, f: FaultState, qs: seq<OrderRequest>): ErrorCounts
    decreases |qs|
  {
    if qs == [] then m else ErrorsAfter(RecordFailure(m, OutcomeOf(f, qs[0])), f, qs[1..])
  }

  /** How many of the orders `qs` fail with a failure counted under the labels `k`. */
  function FailuresLabelled(f: FaultState, qs: seq<OrderRequest>, k: (string, string)): nat {
    if qs == [] then 0
    else (var o := OutcomeOf(f, qs[0]); if o.Failed? && ErrorKey(o.error) == k then 1 else 0)
         + FailuresLabelled(f, qs[1..], k)
  }

  /** How many of the orders `qs` carry an invalid order id. */
  function InvalidOrders(qs: seq<OrderRequest>): nat {
    if qs == [] then 0
    else (if InvalidOrderId(OrderIdOrDefault(qs[0].orderIdArg)) then 1 else 0) + InvalidOrders(qs[1..])
  }

  /** Each error counter child grows by exactly the number of orders that fail under its labels. */
  lemma {:induction false} ErrorCounterTallies(m: ErrorCounts, f: FaultState, qs: seq<OrderRequest>,
                                               k: (string, string))
    ensures Count(ErrorsAfter(m, f, qs), k) == Count(m, k) + FailuresLabelled(f, qs, k)
    decreases |qs|
  {
    if qs != [] {
      ErrorCounterTallies(RecordFailure(m, OutcomeOf(f, qs[0])), f, qs[1..], k);
    }
  }

  /** The `ValidationError` count of a batch is its number of invalid order ids, whatever the flags. */
  lemma {:induction false} ValidationFailuresAreInvalidOrders(f: FaultState, qs: seq<OrderRequest>)
    ensures FailuresLabelled(f, qs, ErrorKey(ValidationError)) == InvalidOrders(qs)
    decreases |qs|
  {
    if qs != [] {
      var o := OutcomeOf(f, qs[0]);
      if o.Failed? {
        ErrorKeyInjective(o.error, ValidationError);
      }
      ValidationFailuresAreInvalidOrders(f, qs[1..]);
    }
  }

  /** Orders never touch an error counter child labelled with another endpoint. */
  lemma {:induction false} OtherEndpointsUntouched(m: ErrorCounts, f: FaultState, qs: seq<OrderRequest>,
                                                   k: (string, string))
    requires k.1 != Endpoint
    ensures Count(ErrorsAfter(m, f, qs), k) == Count(m, k)
    decreases |qs|
  {
    if qs != [] {
      OtherEndpointsUntouched(RecordFailure(m, OutcomeOf(f, qs[0])), f, qs[1..], k);
    }
  }
}
