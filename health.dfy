/**
 * The health state: when the gateway started and the last known status of the CouchDB
 * backend, overwritten by status updates and read by the health endpoint.
 *
 * Wall-clock instants are integers counting nanoseconds since the Unix epoch (negative
 * before it); the clock readings are parameters.
 */
module Health {
  import opened Common

  const NanosPerSecond: nat := 1_000_000_000

  /** `duration_since(earlier).unwrap_or_default().as_secs()`: whole seconds, 0 when the clock went backwards. */
  function SecondsSince(earlier: int, later: int): (r: nat)
    ensures later < earlier ==> r == 0
    ensures later >= earlier ==> r * NanosPerSecond <= later - earlier < (r + 1) * NanosPerSecond
  {
    if later < earlier then 0 else (later - earlier) / NanosPerSecond
  }

  /** The backend's status as last recorded. */
  datatype CouchDbStatus = CouchDbStatus(available: bool, lastChecked: int, errorMessage: Option<string>)

  /** The health endpoint's answer. */
  datatype HealthResponse = HealthResponse(status: string, uptimeSeconds: nat, version: string, couchdb: CouchDbStatus)

  /** "healthy" when the backend is available, "degraded" otherwise; there is no third state. */
  function HealthLabel(available: bool): (r: string)
    ensures r == "healthy" <==> available
    ensures r == "degraded" <==> !available
  {
    if available then "healthy" else "degraded"
  }

  /** The answer derived from a status snapshot, the start instant and the current instant. */
  function HealthReport(snapshot: CouchDbStatus, startTime: int, now: int, version: string): (r: HealthResponse)
    ensures r.couchdb == snapshot && r.version == version
    ensures r.uptimeSeconds * NanosPerSecond <= if now < startTime then 0 else now - startTime
  {
    HealthResponse(HealthLabel(snapshot.available), SecondsSince(startTime, now), version, snapshot)
  }

  /**
   * The report embeds the snapshot it was derived from, unchanged, names the state after
   * the snapshot's availability, and counts uptime from the start instant.
   */
  lemma HealthReportFaithful(snapshot: CouchDbStatus, startTime: int, now: int, version: string)
    ensures var r := HealthReport(snapshot, startTime, now, version);
      && r.couchdb == snapshot
      && (r.status == "healthy" <==> snapshot.available)
      && (r.status == "degraded" <==> !snapshot.available)
      && (now < startTime ==> r.uptimeSeconds == 0)
      && (now >= startTime + NanosPerSecond ==> r.uptimeSeconds >= 1)
  {
  }

  class HealthState {
    const startTime: int
    var couchdbStatus: CouchDbStatus

    /** `new`: started now, with the backend not yet known to be available and no error. */
    constructor(now: int)
      ensures startTime == now
      ensures couchdbStatus == CouchDbStatus(false, now, None)
    {
      startTime := now;
      couchdbStatus := CouchDbStatus(false, now, None);
    }

    /** `update_couchdb_status`: overwrites availability and error, and stamps the check with now. */
    method UpdateCouchDbStatus(available: bool, errorMessage: Option<string>, now: int)
      modifies this
      ensures couchdbStatus == CouchDbStatus(available, now, errorMessage)
    {
      couchdbStatus := couchdbStatus.(available := available);
      couchdbStatus := couchdbStatus.(lastChecked := now);
      couchdbStatus := couchdbStatus.(errorMessage := errorMessage);
    }

    /** `health_handler`: a read of the state; the version is the crate's build-time version. */
    method HealthHandler(now: int, version: string) returns (r: HealthResponse)
      ensures r == HealthReport(couchdbStatus, startTime, now, version)
    {
      var uptime := if now < startTime then 0 else (now - startTime) / NanosPerSecond;
      var snapshot := couchdbStatus;
      var status := if snapshot.available then "healthy" else "degraded";
      r := HealthResponse(status, uptime, version, snapshot);
    }
  }

  /** After an update the endpoint reports exactly what the update recorded. */
  method UpdateThenReport(state: HealthState, available: bool, errorMessage: Option<string>, now: int, later: int, version: string)
    returns (r: HealthResponse)
    modifies state
    ensures r.couchdb == CouchDbStatus(available, now, errorMessage)
    ensures r.status == HealthLabel(available)
    ensures r.uptimeSeconds == SecondsSince(state.startTime, later)
  {
    state.UpdateCouchDbStatus(available, errorMessage, now);
    r := state.HealthHandler(later, version);
  }
}
