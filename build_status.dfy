/**
 * The status of the most recent build of a build configuration, and the
 * number the exporter publishes for it.
 */
module BuildStatus {
  import opened Wrappers
  import opened Remote

  /** The status the exporter reports for a configuration that has never run. */
  const NoBuilds: string := "NO_BUILDS"

  /**
   * The status of the first build of the listing (the server returns the most
   * recent one first), or `NoBuilds` when the listing is empty. A first build
   * without a `status` key makes the lookup fail.
   */
  function LatestStatus(builds: seq<Build>): (r: Result<string>)
    ensures builds == [] ==> r == Ok(NoBuilds)
    ensures builds != [] ==> (r.Ok? <==> builds[0].status.Some?)
    ensures r.Ok? && builds != [] ==> r.value == builds[0].status.value
    ensures r.Err? ==> r.fault == MissingKey("status")
  {
    if builds != [] then
      match builds[0].status
      case Some(s) => Ok(s)
      case None => Err(MissingKey("status"))
    else
      Ok(NoBuilds)
  }

  /**
   * `get_last_build_status`: request the latest build of a build configuration
   * and select its status; an absent `build` key reads as no builds.
   */
  function GetLastBuildStatus(server: Server, buildTypeId: string): (r: Result<string>)
    ensures server.builds(buildTypeId).Err? ==> r == Err(server.builds(buildTypeId).fault)
    ensures server.builds(buildTypeId).Ok? && server.builds(buildTypeId).value.build.None? ==> r == Ok(NoBuilds)
    ensures r.Err? && server.builds(buildTypeId).Ok? ==> r == Err(MissingKey("status"))
    ensures server.builds(buildTypeId).Ok? ==> r == LatestStatus(server.builds(buildTypeId).value.build.GetOr([]))
  {
    match server.builds(buildTypeId)
    case Err(f) => Err(f)
    case Ok(body) => LatestStatus(body.build.GetOr([]))
  }

  /** The published code: 1 for SUCCESS, 0 for FAILURE, -1 for NO_BUILDS and any other status. */
  function StatusCode(status: string): (code: int)
    ensures code == 1 || code == 0 || code == -1
    ensures code == 1 <==> status == "SUCCESS"
    ensures code == 0 <==> status == "FAILURE"
  {
    if status == "SUCCESS" then 1
    else if status == "FAILURE" then 0
    else -1
  }

  /**
   * The selection answers NO_BUILDS exactly when the listing is empty or its
   * first build itself carries that status.
   */
  lemma NoBuildsWhenEmpty(builds: seq<Build>)
    ensures LatestStatus(builds) == Ok(NoBuilds) <==> builds == [] || builds[0].status == Some(NoBuilds)
  {
  }

  /** The code of a configuration whose latest-status request succeeds; None when it fails. */
  function CurrentCode(server: Server, buildTypeId: string): Option<int>
  {
    match GetLastBuildStatus(server, buildTypeId)
    case Ok(status) => Some(StatusCode(status))
    case Err(_) => None
  }
}
