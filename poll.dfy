/**
 * One pass of `fetch_and_update_metrics`: for every configured template, in
 * order, list its build configurations; for every configuration that is not
 * paused, fetch the status of its latest build and set the gauge entry of its
 * label tuple to the status code. The first failure ends the pass; the writes
 * made before it stay.
 *
 * A pass is specified by the sequence of writes it makes and the fault that
 * ended it, if any (`PassOutcome`); the gauge afterwards is `Apply` of those
 * writes to the gauge before.
 */
module Poll {
  import opened Wrappers
  import opened Remote
  import opened BuildStatus
  import opened Gauge

  datatype PassOutcome = PassOutcome(writes: seq<Write>, fault: Option<Fault>)

  const Finished := PassOutcome([], None)

  /** Run `next` after `first`, unless `first` was cut short. */
  function Then(first: PassOutcome, next: PassOutcome): PassOutcome
  {
    if first.fault.Some? then first
    else PassOutcome(first.writes + next.writes, next.fault)
  }

  /** `cfg.get("paused", False)`: a configuration without the key is not paused. */
  predicate IsPaused(cfg: BuildConfig)
    ensures cfg.paused.None? ==> !IsPaused(cfg)
    ensures IsPaused(cfg) <==> cfg.paused.Some? && cfg.paused.value
  {
    cfg.paused == Some(true)
  }

  /** Everything a write for `cfg` needs: its id, name and URL, and a readable latest status. */
  predicate Writable(cfg: BuildConfig, server: Server)
  {
    cfg.id.Some? && cfg.name.Some? && cfg.webUrl.Some? && CurrentCode(server, cfg.id.value).Some?
  }

  function LabelsOf(templateId: string, cfg: BuildConfig): Labels
    requires cfg.id.Some? && cfg.name.Some? && cfg.webUrl.Some?
  {
    Labels(cfg.name.value, templateId, cfg.id.value, cfg.webUrl.value)
  }

  /**
   * The body of the inner loop for one configuration: skip it when paused;
   * otherwise read `id` (it may be missing), fetch the latest status, read
   * `name` and then `webUrl`, and write the status code.
   */
  function VisitConfig(templateId: string, cfg: BuildConfig, server: Server): (r: PassOutcome)
    ensures IsPaused(cfg) ==> r == Finished
    ensures !IsPaused(cfg) ==> (r.fault.None? <==> Writable(cfg, server))
    ensures !IsPaused(cfg) && Writable(cfg, server) ==>
              r.writes == [Write(LabelsOf(templateId, cfg), CurrentCode(server, cfg.id.value).value)]
    ensures r.fault.Some? ==> r.writes == []
  {
    if IsPaused(cfg) then Finished
    else if cfg.id.None? then PassOutcome([], Some(MissingKey("id")))
    else match GetLastBuildStatus(server, cfg.id.value)
      case Err(f) => PassOutcome([], Some(f))
      case Ok(status) =>
        if cfg.name.None? then PassOutcome([], Some(MissingKey("name")))
        else if cfg.webUrl.None? then PassOutcome([], Some(MissingKey("webUrl")))
        else PassOutcome([Write(LabelsOf(templateId, cfg), StatusCode(status))], None)
  }

  /** The inner loop over the configurations of one template. */
  function VisitConfigs(templateId: string, configs: seq<BuildConfig>, server: Server): (r: PassOutcome)
    ensures |r.writes| <= |configs|
  {
    if configs == [] then Finished
    else Then(VisitConfigs(templateId, configs[..|configs| - 1], server),
              VisitConfig(templateId, configs[|configs| - 1], server))
  }

  /** One iteration of the outer loop: list the template's configurations, then visit them. */
  function VisitTemplate(templateId: string, server: Server): (r: PassOutcome)
    ensures GetBuildConfigsFromTemplate(server, templateId).Err? ==>
              r == PassOutcome([], Some(GetBuildConfigsFromTemplate(server, templateId).fault))
    ensures |r.writes| <= |ConfigsFor(server, templateId)|
  {
    match GetBuildConfigsFromTemplate(server, templateId)
    case Err(f) => PassOutcome([], Some(f))
    case Ok(configs) => VisitConfigs(templateId, configs, server)
  }

  /** The configurations a template lists, or none when the listing fails. */
  function ConfigsFor(server: Server, templateId: string): seq<BuildConfig>
  {
    match GetBuildConfigsFromTemplate(server, templateId)
    case Err(_) => []
    case Ok(configs) => configs
  }

  /** A whole pass over the configured templates. */
  function VisitTemplates(templateIds: seq<string>, server: Server): PassOutcome
  {
    if templateIds == [] then Finished
    else Then(VisitTemplates(templateIds[..|templateIds| - 1], server),
              VisitTemplate(templateIds[|templateIds| - 1], server))
  }

  // ---------------------------------------------------------------------------
  // The pass as the exporter runs it

  /**
   * The body of the inner loop for one configuration (`VisitConfig`), performed
   * on the gauge: a paused configuration is skipped, a missing key or a failed
   * request is reported, and otherwise the entry of the configuration's label
   * tuple is set to its status code.
   */
  method UpdateConfig(gauge: BuildStatusGauge, templateId: string, cfg: BuildConfig, server: Server)
    returns (fault: Option<Fault>)
    modifies gauge
    ensures gauge.series == Apply(old(gauge.series), VisitConfig(templateId, cfg, server).writes)
    ensures fault == VisitConfig(templateId, cfg, server).fault
  {
    if IsPaused(cfg) {
      return None;
    }
    if cfg.id.None? {
      return Some(MissingKey("id"));
    }
    var status := GetLastBuildStatus(server, cfg.id.value);
    if status.Err? {
      return Some(status.fault);
    }
    if cfg.name.None? {
      return Some(MissingKey("name"));
    }
    if cfg.webUrl.None? {
      return Some(MissingKey("webUrl"));
    }
    var write := Write(LabelsOf(templateId, cfg), StatusCode(status.value));
    gauge.Set(write.labels, write.value);
    assert VisitConfig(templateId, cfg, server).writes == [] + [write];
    return None;
  }

  /**
   * One iteration of the polling loop of `fetch_and_update_metrics`: update the
   * gauge in place and report the fault that ended the pass early, if any (the
   * exporter logs it and carries on with the next pass).
   */
  method FetchAndUpdateMetrics(gauge: BuildStatusGauge, templateIds: seq<string>, server: Server)
    returns (fault: Option<Fault>)
    modifies gauge
    ensures gauge.series == Apply(old(gauge.series), VisitTemplates(templateIds, server).writes)
    ensures fault == VisitTemplates(templateIds, server).fault
  {
    var i := 0;
    while i < |templateIds|
      invariant 0 <= i <= |templateIds|
      invariant VisitTemplates(templateIds[..i], server).fault.None?
      invariant gauge.series == Apply(old(gauge.series), VisitTemplates(templateIds[..i], server).writes)
    {
      var templateId := templateIds[i];
      NextTemplate(templateIds, server, i);
      var listed := GetBuildConfigsFromTemplate(server, templateId);
      if listed.Err? {
        AbortedTemplate(templateIds, server, i);
        return Some(listed.fault);
      }
      var configs := listed.value;
      ghost var done := VisitTemplates(templateIds[..i], server).writes;
      ghost var atTemplateStart := gauge.series;
      var j := 0;
      while j < |configs|
        invariant 0 <= j <= |configs|
        invariant VisitConfigs(templateId, configs[..j], server).fault.None?
        invariant gauge.series == Apply(atTemplateStart, VisitConfigs(templateId, configs[..j], server).writes)
      {
        var cfg := configs[j];
        ghost var sofar := VisitConfigs(templateId, configs[..j], server).writes;
        fault := UpdateConfig(gauge, templateId, cfg, server);
        ApplyAppend(atTemplateStart, sofar, VisitConfig(templateId, cfg, server).writes);
        NextConfig(templateId, configs, server, j);
        if fault.Some? {
          AbortedConfig(templateIds, server, i, configs, j);
          ApplyAppend(old(gauge.series), done, sofar);
          return;
        }
        j := j + 1;
      }
      assert configs[..|configs|] == configs;
      ApplyAppend(old(gauge.series), done, VisitConfigs(templateId, configs, server).writes);
      i := i + 1;
    }
    assert templateIds[..|templateIds|] == templateIds;
    fault := None;
  }

  /** Visiting one more configuration appends its writes and takes over its fault. */
  lemma NextConfig(templateId: string, configs: seq<BuildConfig>, server: Server, j: nat)
    requires j < |configs|
    requires VisitConfigs(templateId, configs[..j], server).fault.None?
    ensures VisitConfigs(templateId, configs[..j + 1], server)
         == PassOutcome(VisitConfigs(templateId, configs[..j], server).writes
                          + VisitConfig(templateId, configs[j], server).writes,
                        VisitConfig(templateId, configs[j], server).fault)
  {
    assert configs[..j + 1][..j] == configs[..j];
  }

  /** Visiting one more template appends its writes and takes over its fault. */
  lemma NextTemplate(templateIds: seq<string>, server: Server, i: nat)
    requires i < |templateIds|
    requires VisitTemplates(templateIds[..i], server).fault.None?
    ensures VisitTemplates(templateIds[..i + 1], server)
         == PassOutcome(VisitTemplates(templateIds[..i], server).writes
                          + VisitTemplate(templateIds[i], server).writes,
                        VisitTemplate(templateIds[i], server).fault)
  {
    assert templateIds[..i + 1][..i] == templateIds[..i];
  }

  // ---------------------------------------------------------------------------
  // Cutting a pass short

  /** Once a prefix of the configurations fails, the rest of them are not visited. */
  lemma {:induction false} ConfigsAbortedPrefix(templateId: string, configs: seq<BuildConfig>, server: Server, k: nat)
    requires k <= |configs|
    requires VisitConfigs(templateId, configs[..k], server).fault.Some?
    ensures VisitConfigs(templateId, configs, server) == VisitConfigs(templateId, configs[..k], server)
    decreases |configs| - k
  {
    if k < |configs| {
      var init := configs[..|configs| - 1];
      assert init[..k] == configs[..k];
      ConfigsAbortedPrefix(templateId, init, server, k);
    } else {
      assert configs[..k] == configs;
    }
  }

  /** Once a prefix of the templates fails, the rest of them are not visited. */
  lemma {:induction false} AbortedPrefix(templateIds: seq<string>, server: Server, k: nat)
    requires k <= |templateIds|
    requires VisitTemplates(templateIds[..k], server).fault.Some?
    ensures VisitTemplates(templateIds, server) == VisitTemplates(templateIds[..k], server)
    decreases |templateIds| - k
  {
    if k < |templateIds| {
      var init := templateIds[..|templateIds| - 1];
      assert init[..k] == templateIds[..k];
      AbortedPrefix(init, server, k);
    } else {
      assert templateIds[..k] == templateIds;
    }
  }

  /** A pass whose visit of template `i` fails keeps the writes made up to that failure and makes no other. */
  lemma FailedTemplate(templateIds: seq<string>, server: Server, i: nat)
    requires i < |templateIds|
    requires VisitTemplates(templateIds[..i], server).fault.None?
    requires VisitTemplate(templateIds[i], server).fault.Some?
    ensures VisitTemplates(templateIds, server)
         == PassOutcome(VisitTemplates(templateIds[..i], server).writes + VisitTemplate(templateIds[i], server).writes,
                        VisitTemplate(templateIds[i], server).fault)
  {
    NextTemplate(templateIds, server, i);
    AbortedPrefix(templateIds, server, i + 1);
  }

  /** A template whose configuration `j` fails keeps the writes of the configurations before it. */
  lemma FailedConfig(templateId: string, configs: seq<BuildConfig>, server: Server, j: nat)
    requires j < |configs|
    requires VisitConfigs(templateId, configs[..j], server).fault.None?
    requires VisitConfig(templateId, configs[j], server).fault.Some?
    ensures VisitConfigs(templateId, configs, server)
         == PassOutcome(VisitConfigs(templateId, configs[..j], server).writes,
                        VisitConfig(templateId, configs[j], server).fault)
  {
    NextConfig(templateId, configs, server, j);
    ConfigsAbortedPrefix(templateId, configs, server, j + 1);
  }

  /** A pass whose listing of template `i` fails keeps the writes of the earlier templates and makes no other. */
  lemma AbortedTemplate(templateIds: seq<string>, server: Server, i: nat)
    requires i < |templateIds|
    requires VisitTemplates(templateIds[..i], server).fault.None?
    requires GetBuildConfigsFromTemplate(server, templateIds[i]).Err?
    ensures VisitTemplates(templateIds, server)
         == PassOutcome(VisitTemplates(templateIds[..i], server).writes,
                        Some(GetBuildConfigsFromTemplate(server, templateIds[i]).fault))
  {
    FailedTemplate(templateIds, server, i);
  }

  /**
   * A pass in which configuration `j` of template `i` fails keeps the writes
   * made before it, in order, and makes no other: neither for the later
   * configurations of that template nor for any later template.
   */
  lemma AbortedConfig(templateIds: seq<string>, server: Server, i: nat, configs: seq<BuildConfig>, j: nat)
    requires i < |templateIds| && j < |configs|
    requires VisitTemplates(templateIds[..i], server).fault.None?
    requires GetBuildConfigsFromTemplate(server, templateIds[i]) == Ok(configs)
    requires VisitConfigs(templateIds[i], configs[..j], server).fault.None?
    requires VisitConfig(templateIds[i], configs[j], server).fault.Some?
    ensures VisitTemplates(templateIds, server)
         == PassOutcome(VisitTemplates(templateIds[..i], server).writes
                          + VisitConfigs(templateIds[i], configs[..j], server).writes,
                        VisitConfig(templateIds[i], configs[j], server).fault)
  {
    FailedConfig(templateIds[i], configs, server, j);
    FailedTemplate(templateIds, server, i);
  }

  /** The configurations of a template are all visited exactly when none of their visits fails. */
  lemma {:induction false} VisitConfigsCompletes(templateId: string, configs: seq<BuildConfig>, server: Server)
    ensures VisitConfigs(templateId, configs, server).fault.None?
        <==> forall j :: 0 <= j < |configs| ==> VisitConfig(templateId, configs[j], server).fault.None?
  {
    if configs != [] {
      var init := configs[..|configs| - 1];
      VisitConfigsCompletes(templateId, init, server);
      assert forall j :: 0 <= j < |init| ==> init[j] == configs[j];
    }
  }

  /** A pass runs to its end exactly when the visit of every configured template does. */
  lemma {:induction false} PassCompletes(templateIds: seq<string>, server: Server)
    ensures VisitTemplates(templateIds, server).fault.None?
        <==> forall i :: 0 <= i < |templateIds| ==> VisitTemplate(templateIds[i], server).fault.None?
  {
    if templateIds != [] {
      var init := templateIds[..|templateIds| - 1];
      PassCompletes(init, server);
      assert forall i :: 0 <= i < |init| ==> init[i] == templateIds[i];
    }
  }

  // ---------------------------------------------------------------------------
  // Order

  /** Chaining steps of a pass does not depend on how they are grouped. */
  lemma ThenAssociative(a: PassOutcome, b: PassOutcome, c: PassOutcome)
    ensures Then(Then(a, b), c) == Then(a, Then(b, c))
  {
    if a.fault.None? && b.fault.None? {
      assert a.writes + b.writes + c.writes == a.writes + (b.writes + c.writes);
    }
  }

  /**
   * Templates are visited in the order they are configured: a pass over
   * `first + second` is the pass over `first` followed, unless it failed, by
   * the pass over `second`.
   */
  lemma {:induction false} VisitTemplatesAppend(first: seq<string>, second: seq<string>, server: Server)
    ensures VisitTemplates(first + second, server) == Then(VisitTemplates(first, server), VisitTemplates(second, server))
    decreases |second|
  {
    var a := VisitTemplates(first, server);
    if second == [] {
      assert first + second == first;
      assert a.fault.None? ==> a.writes + [] == a.writes;
    } else {
      var both := first + second;
      var init := second[..|second| - 1];
      var last := second[|second| - 1];
      assert both[..|both| - 1] == first + init;
      assert both[|both| - 1] == last;
      VisitTemplatesAppend(first, init, server);
      ThenAssociative(a, VisitTemplates(init, server), VisitTemplate(last, server));
    }
  }

  // ---------------------------------------------------------------------------
  // What a pass writes

  /** Every write of the inner loop is that of one of its unpaused configurations. */
  lemma {:induction false} VisitConfigsSound(templateId: string, configs: seq<BuildConfig>, server: Server, w: Write)
    requires w in VisitConfigs(templateId, configs, server).writes
    ensures exists cfg :: cfg in configs && !IsPaused(cfg) && Writable(cfg, server)
                          && w == Write(LabelsOf(templateId, cfg), CurrentCode(server, cfg.id.value).value)
  {
    var init := configs[..|configs| - 1];
    var last := configs[|configs| - 1];
    assert last in configs;
    var before := VisitConfigs(templateId, init, server);
    if w in before.writes {
      VisitConfigsSound(templateId, init, server, w);
      assert forall cfg :: cfg in init ==> cfg in configs;
    }
  }

  /**
   * Every write of a pass, finished or not, is that of a configuration listed
   * for one of the configured templates and not paused, labelled with its name,
   * template, id and URL, and valued with the code of its latest status.
   */
  lemma {:induction false} PassWritesAreSound(templateIds: seq<string>, server: Server, w: Write)
    requires w in VisitTemplates(templateIds, server).writes
    ensures w.labels.templateId in templateIds
    ensures exists cfg :: cfg in ConfigsFor(server, w.labels.templateId) && !IsPaused(cfg) && Writable(cfg, server)
                          && w == Write(LabelsOf(w.labels.templateId, cfg), CurrentCode(server, cfg.id.value).value)
    ensures w.value == 1 || w.value == 0 || w.value == -1
  {
    var init := templateIds[..|templateIds| - 1];
    var last := templateIds[|templateIds| - 1];
    assert last in templateIds;
    var before := VisitTemplates(init, server);
    if w in before.writes {
      PassWritesAreSound(init, server, w);
      assert w.labels.templateId in init;
    } else {
      var configs := GetBuildConfigsFromTemplate(server, last).value;
      VisitConfigsSound(last, configs, server, w);
      var cfg :| cfg in configs && !IsPaused(cfg) && Writable(cfg, server)
                 && w == Write(LabelsOf(last, cfg), CurrentCode(server, cfg.id.value).value);
      assert w.labels.templateId == last;
    }
  }

  /** An inner loop that runs to its end writes every unpaused configuration. */
  lemma {:induction false} VisitConfigsCovers(templateId: string, configs: seq<BuildConfig>, server: Server, j: nat)
    requires VisitConfigs(templateId, configs, server).fault.None?
    requires j < |configs| && !IsPaused(configs[j])
    ensures Writable(configs[j], server)
    ensures Write(LabelsOf(templateId, configs[j]), CurrentCode(server, configs[j].id.value).value)
              in VisitConfigs(templateId, configs, server).writes
  {
    var init := configs[..|configs| - 1];
    if j < |configs| - 1 {
      assert init[j] == configs[j];
      VisitConfigsCovers(templateId, init, server, j);
    }
  }

  /** A pass that runs to its end writes every unpaused configuration of every configured template. */
  lemma {:induction false} PassCovers(templateIds: seq<string>, server: Server, i: nat, j: nat)
    requires VisitTemplates(templateIds, server).fault.None?
    requires i < |templateIds|
    requires j < |ConfigsFor(server, templateIds[i])| && !IsPaused(ConfigsFor(server, templateIds[i])[j])
    ensures Writable(ConfigsFor(server, templateIds[i])[j], server)
    ensures Write(LabelsOf(templateIds[i], ConfigsFor(server, templateIds[i])[j]),
                  CurrentCode(server, ConfigsFor(server, templateIds[i])[j].id.value).value)
              in VisitTemplates(templateIds, server).writes
  {
    var init := templateIds[..|templateIds| - 1];
    if i < |templateIds| - 1 {
      assert init[i] == templateIds[i];
      PassCovers(init, server, i, j);
    } else {
      assert VisitTemplate(templateIds[i], server).fault.None?;
      VisitConfigsCovers(templateIds[i], ConfigsFor(server, templateIds[i]), server, j);
    }
  }

  /**
   * After a pass in which no call fails, the entry of every configuration that
   * is listed for a configured template and not paused holds the code of its
   * latest status, whatever the gauge held before.
   */
  lemma CompletedPassSetsEveryConfig(templateIds: seq<string>, server: Server, series: map<Labels, int>, i: nat, j: nat)
    requires VisitTemplates(templateIds, server).fault.None?
    requires i < |templateIds|
    requires j < |ConfigsFor(server, templateIds[i])| && !IsPaused(ConfigsFor(server, templateIds[i])[j])
    ensures var cfg := ConfigsFor(server, templateIds[i])[j];
            var after := Apply(series, VisitTemplates(templateIds, server).writes);
            && Writable(cfg, server)
            && LabelsOf(templateIds[i], cfg) in after
            && after[LabelsOf(templateIds[i], cfg)] == CurrentCode(server, cfg.id.value).value
  {
    var cfg := ConfigsFor(server, templateIds[i])[j];
    var writes := VisitTemplates(templateIds, server).writes;
    PassCovers(templateIds, server, i, j);
    var k := LabelsOf(templateIds[i], cfg);
    var v := CurrentCode(server, cfg.id.value).value;
    forall w | w in writes && w.labels == k
      ensures w.value == v
    {
      PassWritesAreSound(templateIds, server, w);
    }
    ApplyAgreeing(series, writes, k, v);
  }

  /** No pass, finished or cut short, removes an entry from the gauge. */
  lemma PassRemovesNothing(templateIds: seq<string>, server: Server, series: map<Labels, int>)
    ensures series.Keys <= Apply(series, VisitTemplates(templateIds, server).writes).Keys
  {
    ApplyKeys(series, VisitTemplates(templateIds, server).writes);
  }

  /**
   * An entry whose label tuple belongs to no configuration the pass could
   * write (its template is not configured, or no listed, unpaused
   * configuration of that template carries those labels) keeps its value.
   */
  lemma PassKeepsUnvisitedSeries(templateIds: seq<string>, server: Server, series: map<Labels, int>, k: Labels)
    requires k in series
    requires k.templateId !in templateIds
          || forall cfg :: (cfg in ConfigsFor(server, k.templateId) && !IsPaused(cfg) && Writable(cfg, server))
                           ==> LabelsOf(k.templateId, cfg) != k
    ensures var after := Apply(series, VisitTemplates(templateIds, server).writes);
            k in after && after[k] == series[k]
  {
    var writes := VisitTemplates(templateIds, server).writes;
    forall w | w in writes
      ensures w.labels != k
    {
      PassWritesAreSound(templateIds, server, w);
    }
    ApplyUntouched(series, writes, k);
  }

  /**
   * Passes over an unchanged server agree: running a second pass right after
   * the first leaves the gauge as the first one left it.
   */
  lemma RepeatedPassChangesNothing(templateIds: seq<string>, server: Server, series: map<Labels, int>)
    ensures var writes := VisitTemplates(templateIds, server).writes;
            Apply(Apply(series, writes), writes) == Apply(series, writes)
  {
    ApplyIdempotent(series, VisitTemplates(templateIds, server).writes);
  }
}
