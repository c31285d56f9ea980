/**
 * Request accounting after every request: the `http_requests_total` counter
 * child labelled `(method, endpoint or "unknown", str(status))` goes up by one.
 */
module Requests {
  import opened Wrappers
  import opened Counters

  type RequestCounts = map<(string, string, string), nat>

  const UnknownEndpoint := "unknown"

  /** `request.endpoint or "unknown"`: no matched endpoint, or an empty name, reads as `"unknown"`. */
  function EndpointLabel(endpoint: Option<string>): (l: string)
    ensures l != ""
    ensures endpoint.Some? && endpoint.value != "" ==> l == endpoint.value
    ensures !(endpoint.Some? && endpoint.value != "") ==> l == UnknownEndpoint
  {
    if endpoint.Some? && endpoint.value != "" then endpoint.value else UnknownEndpoint
  }

  function DigitChar(d: nat): (c: char)
    requires d < 10
    ensures '0' <= c <= '9'
  {
    (48 + d) as char
  }

  function DigitValue(c: char): nat {
    if '0' <= c <= '9' then c as int - 48 else 0
  }

  /** `str(status_code)`: the decimal numeral of the status, without leading zeros. */
  function StatusLabel(code: nat): (s: string)
    ensures |s| > 0
    ensures forall i :: 0 <= i < |s| ==> '0' <= s[i] <= '9'
    ensures |s| > 1 ==> s[0] != '0'
    ensures code < 10 <==> |s| == 1
    decreases code
  {
    if code < 10 then [DigitChar(code)] else StatusLabel(code / 10) + [DigitChar(code % 10)]
  }

  /** Reading a decimal numeral back; the inverse of `StatusLabel`. */
  function ParseDecimal(s: string): nat
    decreases |s|
  {
    if s == [] then 0 else 10 * ParseDecimal(s[..|s| - 1]) + DigitValue(s[|s| - 1])
  }

  lemma {:induction false} StatusLabelRoundTrip(code: nat)
    ensures ParseDecimal(StatusLabel(code)) == code
    decreases code
  {
    if code >= 10 {
      var s := StatusLabel(code);
      assert s[..|s| - 1] == StatusLabel(code / 10);
      StatusLabelRoundTrip(code / 10);
    }
  }

  /** Different status codes are counted under different `status` labels. */
  lemma StatusLabelInjective(a: nat, b: nat)
    ensures StatusLabel(a) == StatusLabel(b) ==> a == b
  {
    StatusLabelRoundTrip(a);
    StatusLabelRoundTrip(b);
  }

  /** The label tuple one request is counted under. */
  function RequestKey(httpMethod: string, endpoint: Option<string>, code: nat): (string, string, string) {
    (httpMethod, EndpointLabel(endpoint), StatusLabel(code))
  }

  /** Requests that differ in method, endpoint label or status are counted apart. */
  lemma RequestKeySeparates(m1: string, e1: Option<string>, c1: nat, m2: string, e2: Option<string>, c2: nat)
    ensures RequestKey(m1, e1, c1) == RequestKey(m2, e2, c2) <==>
              m1 == m2 && EndpointLabel(e1) == EndpointLabel(e2) && c1 == c2
  {
    StatusLabelInjective(c1, c2);
  }

  /** The request counter after one request. */
  function RecordRequest(m: RequestCounts, httpMethod: string, endpoint: Option<string>, code: nat): (r: RequestCounts)
    ensures Count(r, RequestKey(httpMethod, endpoint, code)) == Count(m, RequestKey(httpMethod, endpoint, code)) + 1
    ensures forall k :: k != RequestKey(httpMethod, endpoint, code) ==> Count(r, k) == Count(m, k)
  {
    Inc(m, RequestKey(httpMethod, endpoint, code))
  }

  /** What the accounting sees of one finished request. */
  datatype RequestRecord = RequestRecord(httpMethod: string, endpoint: Option<string>, code: nat)

  function KeyOf(q: RequestRecord): (string, string, string) {
    RequestKey(q.httpMethod, q.endpoint, q.code)
  }

  /** The request counter after the requests `log`, in order. */
  function RecordAll(m: RequestCounts, log: seq<RequestRecord>): RequestCounts
    decreases |log|
  {
    if log == [] then m
    else RecordAll(RecordRequest(m, log[0].httpMethod, log[0].endpoint, log[0].code), log[1..])
  }

  /** How many requests of `log` have the method, endpoint label and status of `k`. */
  function Matching(log: seq<RequestRecord>, k: (string, string, string)): nat {
    if log == [] then 0 else (if KeyOf(log[0]) == k then 1 else 0) + Matching(log[1..], k)
  }

  /**
   * Scraping before and after a run of requests shows each
   * `(method, endpoint, status)` child grown by exactly the number of
   * matching requests.
   */
  lemma {:induction false} RequestCounterTallies(m: RequestCounts, log: seq<RequestRecord>,
                                                 k: (string, string, string))
    ensures Count(RecordAll(m, log), k) == Count(m, k) + Matching(log, k)
    decreases |log|
  {
    if log != [] {
      RequestCounterTallies(RecordRequest(m, log[0].httpMethod, log[0].endpoint, log[0].code), log[1..], k);
    }
  }
}
