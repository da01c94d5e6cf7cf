/**
 * `GET /api/health` (src/app/api/health/route.ts): two probes of the store,
 * the users collection and the root, each turned into a service status, and
 * an overall status that is `ok` only when both are up.
 *
 * A probe's outcome is a parameter. The clock, `process.uptime()`, the
 * environment name and the version are not part of this model.
 */
module HealthRoute {
  import opened Types

  /** What a probe came back with: an answer with its HTTP status and elapsed time, or a thrown error. */
  datatype Probe =
    | Answered(status: int, elapsed: int)
      // `message` is the error's message when it is an `Error`, otherwise absent
    | Failed(message: Option<string>)

  const CheckFailed := "Health check failed"
  const UnknownError := "Unknown error"

  /** What the outer `try` block did: ran to its end, or threw (an `Error` carries its message). */
  datatype Outcome = Completed | Threw(message: Option<string>)

  /** The status, response time and error the handler reports for one probe. */
  function Service(probe: Probe, up: string, down: string, fallback: string): (s: ServiceHealth)
    ensures s.status == up <==> probe.Answered? && probe.status == 200
    ensures probe.Answered? ==> s.responseTime == Some(probe.elapsed) && s.error.None?
    ensures probe.Failed? ==> s.responseTime.None? && s.error.Some?
    ensures probe.Failed? && probe.message.Some? ==> s.error == probe.message
    ensures probe.Failed? && probe.message.None? ==> s.error == Some(fallback)
    requires up != down
  {
    match probe
    case Answered(status, elapsed) => ServiceHealth(if status == 200 then up else down, Some(elapsed), None)
    case Failed(message) => ServiceHealth(down, None, Some(if message.Some? then message.value else fallback))
  }

  /**
   * The handler. `outer` says whether something outside the two probes
   * threw, which the outer `catch` turns into a 500.
   */
  method Check(db: Probe, api: Probe, outer: Outcome) returns (reply: Reply)
    ensures outer.Threw? ==> reply == Reply(500, Health(HealthReport(
      "error", "disconnected",
      ServiceHealth("disconnected", None, Some(CheckFailed)),
      ServiceHealth("offline", None, Some(CheckFailed)),
      Some(if outer.message.Some? then outer.message.value else UnknownError))))
    ensures outer.Completed? ==> reply.status == 200 && reply.body.Health? && reply.body.report.error.None?
    ensures outer.Completed? ==>
      var h := reply.body.report;
      && h.databaseService == Service(db, "connected", "disconnected", "Database connection failed")
      && h.apiService == Service(api, "online", "offline", "API connection failed")
    // whichever way it ends, the top-level `database` is the database service's status,
    // and the overall status is `ok` exactly when the database is connected and the api online
    ensures reply.body.Health? && reply.body.report.database == reply.body.report.databaseService.status
    ensures var h := reply.body.report;
      && h.databaseService.status in {"connected", "disconnected"} && h.apiService.status in {"online", "offline"}
      && (h.status == "ok" <==> h.databaseService.status == "connected" && h.apiService.status == "online")
      && (h.status != "ok" ==> h.status == "error")
  {
    if outer.Threw? {
      var down := ServiceHealth("disconnected", None, Some(CheckFailed));
      var offline := ServiceHealth("offline", None, Some(CheckFailed));
      var message := if outer.message.Some? then outer.message.value else UnknownError;
      return Reply(500, Health(HealthReport("error", "disconnected", down, offline, Some(message))));
    }

    var dbStatus := "disconnected";
    var dbResponseTime: Option<int> := None;
    var dbError: Option<string> := None;
    match db {
      case Answered(status, elapsed) =>
        dbResponseTime := Some(elapsed);
        if status == 200 {
          dbStatus := "connected";
        }
      case Failed(message) =>
        dbError := Some(if message.Some? then message.value else "Database connection failed");
    }

    var apiStatus := "offline";
    var apiResponseTime: Option<int> := None;
    var apiError: Option<string> := None;
    match api {
      case Answered(status, elapsed) =>
        apiResponseTime := Some(elapsed);
        if status == 200 {
          apiStatus := "online";
        }
      case Failed(message) =>
        apiError := Some(if message.Some? then message.value else "API connection failed");
    }

    var overall := if dbStatus == "connected" && apiStatus == "online" then "ok" else "error";
    var report := HealthReport(overall, dbStatus,
                               ServiceHealth(dbStatus, dbResponseTime, dbError),
                               ServiceHealth(apiStatus, apiResponseTime, apiError),
                               None);
    reply := Reply(200, Health(report));
  }
}
