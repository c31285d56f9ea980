/**
 * The simulated fault state and the health reporter: two process-wide flags,
 * each toggled by its own random draw on every health check, the two gauges
 * derived from them, and the `{"status", "details"}` body of `/health`.
 */
module Health {

  /** The two process-wide flags; both start out true. */
  datatype FaultState = FaultState(dbConnected: bool, thirdPartyApiAvailable: bool)

  const Initial := FaultState(true, true)

  /** The JSON body `{"status": status, "details": details}` returned by `/health`. */
  datatype HealthBody = HealthBody(status: string, details: map<string, string>)

  const Healthy := "healthy"
  const Degraded := "degraded"
  const DbDetailKey := "db"
  const DbDetail := "Connection lost"
  const ApiDetailKey := "third_party_api"
  const ApiDetail := "Service unreachable"

  /**
   * The flag update of one health check. `flipDb` stands for the draw
   * `random.random() < 0.1` firing and `flipApi` for `random.random() < 0.05`.
   */
  function Flip(s: FaultState, flipDb: bool, flipApi: bool): (t: FaultState)
    ensures t.dbConnected != s.dbConnected <==> flipDb
    ensures t.thirdPartyApiAvailable != s.thirdPartyApiAvailable <==> flipApi
  {
    FaultState(if flipDb then !s.dbConnected else s.dbConnected,
               if flipApi then !s.thirdPartyApiAvailable else s.thirdPartyApiAvailable)
  }

  /** Value set on the `db_active_connections` gauge. */
  function DbGauge(s: FaultState): (g: int)
    ensures g == 5 <==> s.dbConnected
    ensures g == 0 <==> !s.dbConnected
  {
    if s.dbConnected then 5 else 0
  }

  /** Value set on the `third_party_api_failures` gauge. */
  function ThirdPartyGauge(s: FaultState): (g: int)
    ensures g == 0 <==> s.thirdPartyApiAvailable
    ensures g == 1 <==> !s.thirdPartyApiAvailable
  {
    if s.thirdPartyApiAvailable then 0 else 1
  }

  /**
   * The health body, built in the order the handler builds it: start healthy
   * with no details, then degrade for the database, then for the third-party API.
   */
  function Report(s: FaultState): (r: HealthBody)
    ensures r.status == Healthy || r.status == Degraded
    ensures r.status == Degraded <==> !s.dbConnected || !s.thirdPartyApiAvailable
    ensures DbDetailKey in r.details <==> !s.dbConnected
    ensures ApiDetailKey in r.details <==> !s.thirdPartyApiAvailable
    ensures r.details.Keys <= {DbDetailKey, ApiDetailKey}
    ensures DbDetailKey in r.details ==> r.details[DbDetailKey] == DbDetail
    ensures ApiDetailKey in r.details ==> r.details[ApiDetailKey] == ApiDetail
  {
    var afterDb :=
      if !s.dbConnected then HealthBody(Degraded, map[DbDetailKey := DbDetail])
      else HealthBody(Healthy, map[]);
    if !s.thirdPartyApiAvailable then
      HealthBody(Degraded, afterDb.details[ApiDetailKey := ApiDetail])
    else
      afterDb
  }

  /** The gauges and the health body never disagree about which dependency is down. */
  lemma GaugesAgreeWithReport(s: FaultState)
    ensures DbGauge(s) == 0 <==> DbDetailKey in Report(s).details
    ensures ThirdPartyGauge(s) == 1 <==> ApiDetailKey in Report(s).details
    ensures Report(s).status == Healthy <==> DbGauge(s) == 5 && ThirdPartyGauge(s) == 0
  {
  }

  /** The draws of a sequence of health checks, one `(flipDb, flipApi)` pair per check. */
  type Draws = seq<(bool, bool)>

  /** The fault state after the health checks whose draws are `ds`, in order. */
  function ApplyFlips(s: FaultState, ds: Draws): FaultState
    decreases |ds|
  {
    if ds == [] then s else ApplyFlips(Flip(s, ds[0].0, ds[0].1), ds[1..])
  }

  /** How many of the draws fired for the database flag. */
  function DbFirings(ds: Draws): nat {
    if ds == [] then 0 else (if ds[0].0 then 1 else 0) + DbFirings(ds[1..])
  }

  /** How many of the draws fired for the third-party flag. */
  function ApiFirings(ds: Draws): nat {
    if ds == [] then 0 else (if ds[0].1 then 1 else 0) + ApiFirings(ds[1..])
  }

  /**
   * After any number of health checks each flag equals its starting value
   * exactly when its own draw fired an even number of times; the other flag's
   * draws play no part.
   */
  lemma {:induction false} FlagsFollowParity(s: FaultState, ds: Draws)
    ensures ApplyFlips(s, ds).dbConnected == (s.dbConnected == (DbFirings(ds) % 2 == 0))
    ensures ApplyFlips(s, ds).thirdPartyApiAvailable
              == (s.thirdPartyApiAvailable == (ApiFirings(ds) % 2 == 0))
    decreases |ds|
  {
    if ds != [] {
      FlagsFollowParity(Flip(s, ds[0].0, ds[0].1), ds[1..]);
    }
  }
}
