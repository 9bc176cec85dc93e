# TeamCity build-status exporter: a Dafny model of the polling pass

The exporter reads a comma-separated list of TeamCity template ids from the
environment. It refuses to start unless the server URL, the API token and at
least one template id are set. Then, on every pass, it asks the CI server for
the build configurations derived from each template, in the configured order.
For every configuration that is not paused it fetches the status of the latest
build and sets the `teamcity_last_build_status` gauge, keyed by
(build_type_name, template_id, build_type_id, build_url), to 1 for SUCCESS, 0
for FAILURE and -1 for anything else, including the synthetic NO_BUILDS. Any
exception ends the pass. It is logged and not raised, and the writes already
made stay in the gauge.

The model has six modules:

- `Settings` (settings.dfy): Python's `strip`, `split(",")` and the filtering
  comprehension that parses the template list, plus the startup guard.
- `BuildStatus` (build_status.dfy): choosing the latest build's status, and the
  status-to-code map.
- `Remote` (remote.dfy): the server's JSON answers, and the `Result`/`Fault`
  values that stand for a failed request or a missing JSON key.
- `Gauge` (gauge.dfy): the gauge as a class whose `series` map `Set` overwrites.
  `Apply` gives the map after a sequence of writes.
- `Poll` (poll.dfy): one pass. `VisitTemplates` says, as a function, which
  writes a pass makes and which fault ends it. `FetchAndUpdateMetrics` is the
  pass itself: nested loops that update the gauge object in place, proved to
  leave exactly `Apply(old series, VisitTemplates(...).writes)`.
- `Wrappers` (wrappers.dfy): `Option`.

The server is a `Server` value: one total function per kind of request. It maps
a template id or build-type id to a decoded body or a failure, so every request
is assumed to return. A `Remote.Fault`
is `RequestFailed` (transport error, non-2xx status, undecodable body) or
`MissingKey(k)` (the `KeyError` of `cfg["id"]`, `cfg["name"]`, `cfg["webUrl"]`
or `builds[0]["status"]`). Keys are read in the order the code reads them:
`id` is read before the build request, and `name` before `webUrl` after it.

`BuildStatus.NoBuildsWhenEmpty` states precisely when the selection yields
NO_BUILDS: when the listing is empty, or when the first build itself reports
the status string "NO_BUILDS". Both cases publish -1.

## Model

| member | source | states |
|---|---|---|
| `Settings.TrimStart` | app/main.py:21 | the result is the suffix of the input left after removing leading whitespace, and does not start with whitespace |
| `Settings.TrimEnd` | app/main.py:21 | the result is the prefix left after removing trailing whitespace, and does not end with whitespace |
| `Settings.Strip` | app/main.py:21 | the result is one contiguous slice of the field with only whitespace before and after it; it neither starts nor ends with whitespace, and it is empty exactly when the field is all whitespace |
| `Settings.Split` | app/main.py:21 | splitting on "," yields at least one field and no field contains a comma |
| `Settings.JoinSplit` | app/main.py:21 | joining the split fields with "," gives back the input |
| `Settings.SplitJoin` | app/main.py:21 | splitting comma-free fields joined with "," gives back the fields |
| `Settings.SplitAppend` | app/main.py:21 | the fields of `a + "," + b` are the fields of `a` followed by those of `b` |
| `Settings.KeepNonBlank` | app/main.py:21 | the filter keeps at most as many entries as there are fields, and each kept entry is a non-empty, trimmed id that is also comma-free when no field contains a comma |
| `Settings.KeepNonBlankAppend` | app/main.py:21 | filtering distributes over concatenation |
| `Settings.ParseTemplateIds` | app/main.py:20-21 | every parsed id is non-empty, has no leading or trailing whitespace and contains no comma |
| `Settings.ParseAppend` | app/main.py:21 | ids listed before a comma come first, ids after it follow, each in input order |
| `Settings.ParseField` | app/main.py:21 | a comma-free string parses to its stripped text, or to nothing when it is blank |
| `Settings.KeepNonBlankEmpty` | app/main.py:21 | the filter yields nothing exactly when every field is all whitespace |
| `Settings.SplitBlank` | app/main.py:21 | the input holds only commas and whitespace exactly when every field is all whitespace |
| `Settings.ParseEmpty` | app/main.py:20-21 | the list is empty exactly when the input holds only commas and whitespace |
| `Settings.TemplateIdsFromEnv` | app/main.py:20-21 | an unset variable reads as "" and configures no template; a set variable yields `Settings.ParseTemplateIds` of its value; every configured id is non-empty, trimmed and comma-free |
| `Settings.StartupAllowed` | app/main.py:75 | the truthiness test of the three settings: URL and token set and non-empty, at least one template id; `Settings.StartupGuard` characterises it on the raw variables |
| `Settings.StartupGuard` | app/main.py:75-78 | startup is allowed exactly when the URL and the token are non-empty and the template variable (unset reads as "") is not blank |
| `Remote.GetBuildConfigsFromTemplate` | app/main.py:35-40 | a failed listing request is passed on as that fault; a body without `buildType` lists no configuration; otherwise the listed configurations, unchanged and in order |
| `BuildStatus.LatestStatus` | app/main.py:47-50 | no builds gives NO_BUILDS; otherwise the first build's status, or a MissingKey("status") fault when it has none |
| `BuildStatus.NoBuildsWhenEmpty` | app/main.py:47-50 | the result is NO_BUILDS exactly when the listing is empty or the first build reports NO_BUILDS |
| `BuildStatus.GetLastBuildStatus` | app/main.py:42-50 | a failed request is passed on as that fault; a body without `build` gives NO_BUILDS; a readable listing fails only on a missing `status` key; a readable listing gives `BuildStatus.LatestStatus` of its builds (an absent key read as none), i.e. the first build's status or NO_BUILDS when there is none |
| `BuildStatus.StatusCode` | app/main.py:62 | the code is 1, 0 or -1; it is 1 exactly for SUCCESS and 0 exactly for FAILURE, so NO_BUILDS and every other status give -1 |
| `Gauge.BuildStatusGauge.constructor` | app/main.py:29-33 | a new gauge has no series |
| `Gauge.BuildStatusGauge.Set` | app/main.py:63-68 | set overwrites the value of exactly one label tuple and leaves every other tuple as it was |
| `Gauge.ApplyKeys` | app/main.py:63-68 | after any writes the tuples present are the old ones plus the written ones; nothing is removed |
| `Gauge.ApplyAppend` | app/main.py:56-68 | performing two batches of writes in turn is performing their concatenation |
| `Gauge.ApplyUntouched` | app/main.py:63-68 | a tuple that no write names keeps its presence and its value |
| `Gauge.ApplyAgreeing` | app/main.py:63-68 | a tuple that is written, always with the same value, ends up holding that value |
| `Gauge.LastWriteWins` | app/main.py:63-68 | when one tuple is written twice, the later write decides its value |
| `Gauge.ApplyOverwritten` | app/main.py:63-68 | a tuple's earlier value no longer matters once the tuple is overwritten |
| `Gauge.ApplyIdempotent` | app/main.py:54-72 | performing the same writes twice leaves what performing them once leaves |
| `Poll.IsPaused` | app/main.py:59 | a configuration is skipped only when `paused` is present and true; an absent key means not paused |
| `Poll.VisitConfig` | app/main.py:59-68 | a paused config (paused true; an absent key means not paused) yields no write; an unpaused one completes exactly when id, name, webUrl and its latest status are all readable, and then makes exactly one write: its label tuple set to the code of its latest status; a failed visit writes nothing |
| `Poll.VisitConfigs` | app/main.py:58-68 | the inner loop makes no more writes than there are configurations in the listing |
| `Poll.VisitTemplate` | app/main.py:56-68 | a failed listing of the template ends the visit with that fault and no write; otherwise it makes no more writes than the listing has configurations |
| `Poll.VisitTemplates` | app/main.py:55-71 | the reference definition of one pass, as writes in order plus the fault that ended it; `Poll.PassCompletes`, `Poll.PassWritesAreSound`, `Poll.PassCovers` and `Poll.AbortedConfig` characterise it |
| `Poll.UpdateConfig` | app/main.py:59-68 | performing one config's step on the gauge object leaves the gauge and the fault that `VisitConfig` specifies |
| `Poll.FetchAndUpdateMetrics` | app/main.py:55-71 | one pass changes the gauge object to the old series with the pass's writes applied in order, and returns the fault that ended the pass, if any |
| `Poll.VisitConfigsCompletes` | app/main.py:58-68 | the loop over a template's configs completes exactly when no config's visit fails |
| `Poll.PassCompletes` | app/main.py:55-71 | a pass completes exactly when no template's visit fails |
| `Poll.ConfigsAbortedPrefix` | app/main.py:55-71 | once a prefix of a template's configs fails, no later config is visited |
| `Poll.AbortedPrefix` | app/main.py:55-71 | once a prefix of the templates fails, no later template is visited |
| `Poll.FailedTemplate` | app/main.py:55-71 | when the visit of template i fails, the pass keeps the writes made up to that failure and ends with its fault |
| `Poll.FailedConfig` | app/main.py:58-71 | when configuration j of a template fails, the template keeps the writes of the configurations before j and ends with that fault |
| `Poll.AbortedTemplate` | app/main.py:56-57 | when listing template i fails, the pass keeps the writes of templates 0..i-1, makes no other and ends with that fault |
| `Poll.AbortedConfig` | app/main.py:55-71 | when config j of template i fails, the pass keeps exactly the writes made before it, in order, and ends with that fault |
| `Poll.ThenAssociative` | app/main.py:55-71 | chaining the steps of a pass does not depend on how they are grouped |
| `Poll.VisitTemplatesAppend` | app/main.py:56 | templates are visited in configured order: the pass over `first + second` is the pass over `first` followed, if that completed, by the pass over `second` |
| `Poll.VisitConfigsSound` | app/main.py:58-68 | every write of a template's config loop belongs to one of its unpaused configs and carries that config's current code |
| `Poll.PassWritesAreSound` | app/main.py:56-68 | every write of any pass, complete or cut short, is for a configured template and an unpaused config listed for it; it carries that config's labels and the code of its latest status, a value in {1, 0, -1} |
| `Poll.VisitConfigsCovers` | app/main.py:58-68 | a config loop that completes writes every unpaused config |
| `Poll.PassCovers` | app/main.py:56-68 | a pass that completes writes every unpaused config of every configured template |
| `Poll.CompletedPassSetsEveryConfig` | app/main.py:56-68 | after a completed pass, every unpaused config's label tuple maps to the code of its latest status, whatever the gauge held before |
| `Poll.PassRemovesNothing` | app/main.py:56-71 | no pass removes a gauge entry |
| `Poll.PassKeepsUnvisitedSeries` | app/main.py:56-68 | an entry whose labels belong to no unpaused config of a configured template keeps its value |
| `Poll.RepeatedPassChangesNothing` | app/main.py:54-72 | a second pass over an unchanged server leaves the gauge exactly as the first pass left it |

## Left out

- HTTP plumbing (URL and locator strings, headers, `requests.get`, `raise_for_status`, `resp.json()`, app/main.py:24-27, 37-39, 44-46): each request is one call of a `Server` function that returns a body or `RequestFailed`.
- JSON values of unexpected types: a body that is not an object, a non-boolean `paused` judged by Python truthiness, and non-string labels converted with `str()`. The model reads `paused` as an optional boolean and all labels as strings.
- Exceptions that are neither a failed request nor a missing key (a `TypeError` on a malformed body, say) are not modelled separately. The pass handles them like any other fault.
- Requests without a timeout (app/main.py:38, 45): `requests.get` is called without `timeout=`, so a server that never answers blocks the pass, and every later one, forever. The model assumes every request returns, either with a body or with a failure, so every modelled pass ends.
- The server is a snapshot: within one pass the same request gets the same answer. A server that changes between two requests of the same pass is not modelled.
- Logging (app/main.py:8-15, the `logging.debug` calls, the logged exception at app/main.py:69-71): side effects only. The fault is returned instead.
- The `prometheus_client` library, `start_http_server` and the exposition endpoint (app/main.py:5, 29-33, 80-81): the gauge is a map from label tuple to value. Scrapes that run concurrently with a pass are not modelled.
- The thread, the endless `while True` and `time.sleep(SCRAPE_INTERVAL)` (app/main.py:54, 72, 82-83): one pass is modelled. `Poll.RepeatedPassChangesNothing` covers back-to-back passes over an unchanged server.
- Reading `TEAMCITY_URL`, `TEAMCITY_TOKEN`, `SCRAPE_INTERVAL` and `DEBUG_LVL` (app/main.py:8, 18-19, 22): they become parameters of `Settings.StartupGuard`, or are left out. Raising `EnvironmentError` and the process exit become the guard's false value.
