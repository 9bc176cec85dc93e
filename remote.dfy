/**
 * The answers of the CI server's REST API, as the polling pass sees them.
 *
 * Each request is assumed to return: it either fails (transport error, non-2xx
 * status, a body that is not JSON) or yields the decoded JSON object. Only the keys the exporter reads are
 * modelled; a key the exporter reads with `obj[key]` may be absent, which raises
 * in the exporter and is modelled as the fault `MissingKey`.
 */
module Remote {
  import opened Wrappers

  /** Why a polling pass was cut short. */
  datatype Fault =
    | RequestFailed            // requests.get / raise_for_status / resp.json() raised
    | MissingKey(key: string)  // a JSON object lacked a key read with obj[key]

  datatype Result<+T> = Ok(value: T) | Err(fault: Fault)

  /** One element of the `buildType` array of a build-type listing. */
  datatype BuildConfig = BuildConfig(
    id: Option<string>,
    name: Option<string>,
    webUrl: Option<string>,
    paused: Option<bool>)

  /** One element of the `build` array of a build listing. */
  datatype Build = Build(status: Option<string>)

  /** Body of `GET /app/rest/buildTypes?locator=template:<id>,paused:false`. */
  datatype BuildTypeList = BuildTypeList(buildType: Option<seq<BuildConfig>>)

  /** Body of `GET /app/rest/builds?locator=buildType:<id>,count:1`. */
  datatype BuildList = BuildList(build: Option<seq<Build>>)

  /**
   * The CI server during one pass: what each request returns, keyed by the
   * template id and the build-type id the request names.
   */
  datatype Server = Server(
    buildTypes: string -> Result<BuildTypeList>,
    builds: string -> Result<BuildList>)

  /** The build configurations derived from a template; an absent `buildType` key reads as none. */
  function GetBuildConfigsFromTemplate(server: Server, templateId: string): (r: Result<seq<BuildConfig>>)
    ensures server.buildTypes(templateId).Err? ==> r == Err(server.buildTypes(templateId).fault)
    ensures server.buildTypes(templateId).Ok? ==> r.Ok?
    ensures server.buildTypes(templateId).Ok? && server.buildTypes(templateId).value.buildType.None? ==> r == Ok([])
    ensures server.buildTypes(templateId).Ok? && server.buildTypes(templateId).value.buildType.Some? ==>
              r == Ok(server.buildTypes(templateId).value.buildType.value)
  {
    match server.buildTypes(templateId)
    case Err(f) => Err(f)
    case Ok(body) => Ok(body.buildType.GetOr([]))
  }
}
