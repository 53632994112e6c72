/** The health checker of pkg/observability/health.go. A check is identified
    by a `HealthCheck` value and evaluated through `check`; the status details
    map and `StartMonitoring`'s ticker are left out. */
module Health {

  datatype HealthStatus = HealthStatus(status: string, message: string, timestamp: int)

  datatype HealthCheck = HealthCheck(id: nat)

  /** The zero `HealthStatus` Go returns for an unknown name. */
  const ZeroStatus := HealthStatus("", "", 0)

  /** Every recorded status is "healthy". */
  ghost predicate AllHealthy(statuses: map<string, HealthStatus>)
  {
    forall name | name in statuses :: statuses[name].status == "healthy"
  }

  /** After a run, the checker is healthy exactly when every fresh result is,
      and every status left from an earlier run for a check no longer
      registered is too. */
  lemma AllHealthyAfterRun(before: map<string, HealthStatus>, results: map<string, HealthStatus>)
    ensures AllHealthy(before + results) <==>
      AllHealthy(results) && forall name | name in before && name !in results :: before[name].status == "healthy"
  {
    if AllHealthy(before + results) {
      forall name | name in results
        ensures results[name].status == "healthy"
      {
        assert (before + results)[name] == results[name];
      }
      forall name | name in before && name !in results
        ensures before[name].status == "healthy"
      {
        assert (before + results)[name] == before[name];
      }
    }
  }

  class HealthChecker {
    var checks: map<string, HealthCheck>
    var statuses: map<string, HealthStatus>

    /** `NewHealthChecker`. */
    constructor ()
      ensures checks == map[] && statuses == map[]
    {
      checks := map[];
      statuses := map[];
    }

    /** `RegisterCheck(name, check)`: replaces any check of that name. */
    method RegisterCheck(name: string, c: HealthCheck)
      modifies this
      ensures checks == old(checks)[name := c] && statuses == old(statuses)
    {
      checks := checks[name := c];
    }

    /** `RunChecks`: records every registered check's result and keeps the
        other statuses; returns the whole status map. */
    method RunChecks(check: HealthCheck -> HealthStatus) returns (result: map<string, HealthStatus>)
      modifies this
      ensures checks == old(checks)
      ensures statuses == old(statuses) + map name | name in checks :: check(checks[name])
      ensures result == statuses
    {
      var pending := checks.Keys;
      while pending != {}
        invariant pending <= checks.Keys && checks == old(checks)
        invariant statuses == old(statuses) + map name | name in checks.Keys - pending :: check(checks[name])
        decreases |pending|
      {
        var name :| name in pending;
        statuses := statuses[name := check(checks[name])];
        pending := pending - {name};
      }
      result := statuses;
    }

    /** `GetStatus(name)`. */
    method GetStatus(name: string) returns (status: HealthStatus, found: bool)
      ensures found <==> name in statuses
      ensures found ==> status == statuses[name]
      ensures !found ==> status == ZeroStatus
    {
      found := name in statuses;
      status := if found then statuses[name] else ZeroStatus;
    }

    /** `IsHealthy`: true when every recorded status is "healthy", so also
        before any run. */
    method IsHealthy() returns (healthy: bool)
      ensures healthy <==> AllHealthy(statuses)
    {
      var pending := statuses.Keys;
      while pending != {}
        invariant pending <= statuses.Keys
        invariant forall name | name in statuses.Keys - pending :: statuses[name].status == "healthy"
        decreases |pending|
      {
        var name :| name in pending;
        if statuses[name].status != "healthy" {
          return false;
        }
        pending := pending - {name};
      }
      return true;
    }
  }
}
