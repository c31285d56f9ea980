# flask-rca-demo fault-injection service, modelled in Dafny

This project models the core of the `flask-rca-demo` service, a small HTTP
service that simulates intermittent database and third-party API failures.
It exists to produce metrics and logs for root-cause-analysis exercises. The
model covers three parts:

- **Fault state and health reporter** (`health.dfy`, module `Health`). There are
  two process-wide flags, `db_connected` and `third_party_api_available`. Each
  health check toggles a flag when that flag's random draw fires. From the new
  flags, the check sets the `db_active_connections` gauge (5 or 0) and the
  `third_party_api_failures` gauge (0 or 1). It also builds the
  `{"status", "details"}` body.
- **Order processing** (`orders.dfy`, module `Orders`). This is the
  first-match-wins decision table of `/process_order`. The checks run in this
  order: validation, then database, then third-party API. The outcomes are
  `ValidationError` with 400, `DatabaseConnectionError` with 503,
  `ThirdPartyTimeout` with 503, and success with 200. The module also builds the
  response bodies. Each failure adds exactly one increment to the
  `app_errors_total` child labelled `(error_type, "process_order")`.
- **Request accounting** (`requests.dfy`, module `Requests`). After every request
  the `http_requests_total` child labelled
  `(method, endpoint or "unknown", str(status))` goes up by one.

`service.dfy` (module `Service`) holds the imperative part as the class
`App`. Its fields are the two flags, the two gauges and the two counters.
`Health`, `ProcessOrder` and `AfterRequest` update these fields in place.
`ServeHealth` and `ServeProcessOrder` run a handler and then the after-request
hook. Every method's postcondition links the new state to the pure functions
of the modules above. `counters.dfy` models a labelled counter as a
`map<labels, nat>` in which a missing child reads as zero. `wrappers.dfy` holds
`Option`, which stands for an absent query parameter or request attribute.

Inputs replace everything the source draws from its environment:

- `flipDb` stands for `random.random() < 0.1` and `flipApi` for
  `random.random() < 0.05`.
- The trace id is an opaque string parameter.
- `libraryFault` stands for a library call on the success path raising an
  exception. The only such calls are the latency sleep and the JSON encoding.
  This fault leads to the `UnexpectedError`/500 branch.

Three details of `flask-rca-demo/app/app.py` fix the shape of the responses
and labels:

- `/health` always returns a `details` map. The map is empty when both flags
  are up (app.py:69-77).
- The 400 and 503 bodies carry a `detail` field with the exception's message,
  and the 500 body carries only `error` (app.py:116, 128, 141).
- The request counter's endpoint label is `request.endpoint or "unknown"`
  (app.py:39). A request with no matched endpoint, or with an empty endpoint
  name, is counted under `"unknown"`.

## Model

| member | source | states |
|---|---|---|
| Counters.Inc | flask-rca-demo/app/app.py:37-41 | incrementing a labelled counter raises exactly that child by 1, leaves every other child unchanged, and adds only that label tuple |
| Health.Flip | flask-rca-demo/app/app.py:59-63 | a flag changes iff its own draw fired; the two flips are independent |
| Health.DbGauge | flask-rca-demo/app/app.py:65 | the DB gauge is 5 iff the database is connected and 0 iff it is not |
| Health.ThirdPartyGauge | flask-rca-demo/app/app.py:66 | the third-party gauge is 0 iff the API is available and 1 iff it is not |
| Health.Report | flask-rca-demo/app/app.py:68-77 | status is "healthy" or "degraded", "degraded" iff at least one flag is false; `details` has key "db" iff the DB is down and "third_party_api" iff the API is down, with their fixed messages, and no other key |
| Health.GaugesAgreeWithReport | flask-rca-demo/app/app.py:65-77 | the gauges and the health body agree on which dependency is down; "healthy" iff the gauges read 5 and 0 |
| Health.FlagsFollowParity | flask-rca-demo/app/app.py:59-63 | after any sequence of health checks, each flag equals its start value iff its own draw fired an even number of times |
| Orders.Classify | flask-rca-demo/app/app.py:86-103 | the outcome is the first failure, in check order, whose condition holds; success iff no condition holds |
| Orders.Respond | flask-rca-demo/app/app.py:99-141 | status 200 iff processed, echoing trace_id and order_id with status "processed"; otherwise the failure's status (400/503/503/500) with an "error" field, and a "detail" field except for the 500 |
| Orders.RecordFailure | flask-rca-demo/app/app.py:85-131 | a failing order adds exactly 1 to its `(error_type, "process_order")` child and changes no other child; a processed order changes nothing |
| Orders.InvalidOrderRejected | flask-rca-demo/app/app.py:86-116 | an empty or "invalid" order id yields ValidationError and 400, whatever the flags, the override and library faults |
| Orders.DatabaseFailureFirst | flask-rca-demo/app/app.py:89-91 | with a valid id, a lost DB or error=db yields DatabaseConnectionError and 503, whatever the third-party state |
| Orders.ThirdPartyFailureSecond | flask-rca-demo/app/app.py:93-95 | with a valid id and the DB check passed, an unavailable API or error=api_timeout yields ThirdPartyTimeout and 503 |
| Orders.ValidOrderProcessed | flask-rca-demo/app/app.py:97-103 | a valid id with both flags up and no recognised override is processed, echoing order_id and trace_id |
| Orders.MissingOrderIdPasses | flask-rca-demo/app/app.py:82 | a missing order_id defaults to "unknown", which passes validation |
| Orders.ErrorKeyInjective | flask-rca-demo/app/app.py:90-131 | distinct failures are counted under distinct error_type labels |
| Orders.ErrorCounterTallies | flask-rca-demo/app/app.py:85-131 | over a batch of orders, each error counter child grows by exactly the number of orders failing under its labels |
| Orders.ValidationFailuresAreInvalidOrders | flask-rca-demo/app/app.py:86-106 | in a batch, the number of ValidationError increments equals the number of invalid order ids, whatever the flags |
| Orders.OtherEndpointsUntouched | flask-rca-demo/app/app.py:90-131 | orders never change an error counter child of another endpoint |
| Requests.EndpointLabel | flask-rca-demo/app/app.py:39 | the endpoint label is the endpoint name when it is present and non-empty, and "unknown" otherwise (no endpoint or an empty name) |
| Requests.StatusLabel | flask-rca-demo/app/app.py:40 | str(status) is a non-empty decimal numeral without leading zeros, one digit exactly when status < 10 |
| Requests.StatusLabelRoundTrip | flask-rca-demo/app/app.py:40 | reading the status label back as a decimal gives the status |
| Requests.StatusLabelInjective | flask-rca-demo/app/app.py:40 | distinct statuses get distinct labels |
| Requests.RequestKeySeparates | flask-rca-demo/app/app.py:37-41 | two requests share a counter child iff they match in method, endpoint label and status |
| Requests.RecordRequest | flask-rca-demo/app/app.py:37-41 | one request adds exactly 1 to its `(method, endpoint or "unknown", str(status))` child and changes no other |
| Requests.RequestCounterTallies | flask-rca-demo/app/app.py:37-41 | scraped before and after a run of requests, each child grows by exactly the number of matching requests |
| Service.App.constructor | flask-rca-demo/app/app.py:18-27 | at process start both flags are true, both gauges read 0, and no counter child exists |
| Service.App.Health | flask-rca-demo/app/app.py:57-77 | the flags become Flip of the old flags; the gauges show the new flags; the body is Report of the new flags and "degraded" iff a flag is false; counters are unchanged |
| Service.App.ProcessOrder | flask-rca-demo/app/app.py:79-141 | the response is Respond of Classify on the current flags; the error counters change as RecordFailure says; the flags and request counters are unchanged |
| Service.App.AfterRequest | flask-rca-demo/app/app.py:34-41 | the request counters change exactly as RecordRequest says; the flags and error counters are unchanged |
| Service.App.ServeHealth | flask-rca-demo/app/app.py:34-77 | a whole GET or HEAD /health request routed to its view: the flags flip, the gauges are current, status 200 is counted under "health", and error counters are unchanged |
| Service.App.ServeProcessOrder | flask-rca-demo/app/app.py:34-141 | a whole GET or HEAD /process_order request routed to its view: the flags and gauges are unchanged, the response and the error counters are as ProcessOrder says, and the response's status is counted under "process_order" |

## Left out

- Random draws: `random.random()` comparisons become the boolean inputs `flipDb` and `flipApi`, so the probabilities 0.1 and 0.05 are not modelled.
- Simulated latency: `time.sleep(random.uniform(0.1, 0.5))` is a blocking float-valued delay with no logical effect.
- Latency histogram and request duration: `http_request_duration_seconds` and the duration arithmetic work on wall-clock floats.
- Structured logging: timestamps, stack traces and JSON log records are I/O with time-dependent content. The logged `error_type` of a 503 is the exception class name (`ConnectionError`/`TimeoutError`), which differs from the counter label; it is not modelled.
- Metrics exposition: `/metrics` and the text format of `generate_latest` belong to the metrics library. Counters are plain maps. A `/metrics` request is still counted through `AfterRequest`, but its handler is not modelled.
- Trace ids: `uuid.uuid4()` is not modelled; the trace id is an opaque input.
- Flask machinery: routing, the `request` object, `jsonify` and `app.run` are not modelled. The `Serve*` methods pass the endpoint names "health" and "process_order" explicitly.
- Service.App.ServeHealth and Service.App.ServeProcessOrder model only GET and HEAD requests that reach the view, the methods the two routes accept. Flask answers any other method itself and never runs the view: for OPTIONS with an automatic 200, and for methods such as POST with a 405 that after-request counts under the endpoint "unknown" (`AfterRequest` alone covers that counting).
- Service.App.ProcessOrder: `UnexpectedError` is reachable only through `libraryFault` on the success path. Exceptions raised inside the metric calls or inside the `except` handlers are not modelled.
- Gauge values: the gauges hold floats in the metrics library and are modelled as integers. Only the values 0, 1 and 5 are ever set.
- Concurrency: worker threads racing on the global flags are not modelled. The model is sequential.
