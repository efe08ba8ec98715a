/** The embeddable widget's bootstrap: the registry of mounted widgets keyed
    by project, mounting and destroying, the precedence chains `init` uses
    to pick the API base URL, the microsite and the project, the theme
    fetch with its fallback, and the theme merge.

    Script-tag data attributes, options and build-time settings are strings
    here, with the empty string standing for an absent or empty value (every
    test in the widget is a truthiness test). Network results and the
    property detected on the page are inputs. */
module Widget {
  import opened Common

  // ---------------------------------------------------------------- precedence chains

  /** `a || b || … || fallback` over strings: the first non-empty
      candidate, or the fallback when every candidate is empty. */
  function FirstTruthy(candidates: seq<string>, fallback: string): (r: string)
    ensures r in candidates || r == fallback
    ensures (forall i :: 0 <= i < |candidates| ==> candidates[i] == "") ==> r == fallback
    ensures forall i ::
              (0 <= i < |candidates| && candidates[i] != "" && forall j :: 0 <= j < i ==> candidates[j] == "")
              ==> r == candidates[i]
  {
    if candidates == [] then fallback
    else if candidates[0] != "" then candidates[0]
    else FirstTruthy(candidates[1..], fallback)
  }

  /** The options object passed to `init`. `theme` is `JNull` when absent. */
  datatype InitOptions = InitOptions(
    apiBaseUrl: string,
    microsite: string,
    projectId: string,
    theme: Json,
    hasTarget: bool)

  /** The data attributes of the script element (`data-api-base-url`,
      `data-microsite`, `data-project`, `data-project-id`). */
  datatype ScriptData = ScriptData(
    apiBaseUrl: string,
    microsite: string,
    project: string,
    projectIdAttr: string)

  /** The build-time settings and the page-global override. */
  datatype Environment = Environment(
    apiBaseUrl: string,
    globalApiBaseUrl: string,
    defaultProjectId: string)

  const DefaultApiBaseUrl: string := "http://localhost:4000"

  /** The API base URL: options, then the data attribute, then the build
      setting, then the page global, then the local development server. */
  function ApiBaseUrl(options: InitOptions, script: ScriptData, env: Environment): (r: string)
    ensures r != ""
    ensures options.apiBaseUrl != "" ==> r == options.apiBaseUrl
    ensures options.apiBaseUrl == "" && script.apiBaseUrl != "" ==> r == script.apiBaseUrl
    ensures options.apiBaseUrl == "" && script.apiBaseUrl == "" && env.apiBaseUrl != "" ==> r == env.apiBaseUrl
    ensures options.apiBaseUrl == "" && script.apiBaseUrl == "" && env.apiBaseUrl == "" && env.globalApiBaseUrl != "" ==>
              r == env.globalApiBaseUrl
    ensures options.apiBaseUrl == "" && script.apiBaseUrl == "" && env.apiBaseUrl == "" && env.globalApiBaseUrl == "" ==>
              r == DefaultApiBaseUrl
    ensures r in {options.apiBaseUrl, script.apiBaseUrl, env.apiBaseUrl, env.globalApiBaseUrl, DefaultApiBaseUrl}
  {
    var chain := [options.apiBaseUrl, script.apiBaseUrl, env.apiBaseUrl, env.globalApiBaseUrl];
    assert chain[0] == options.apiBaseUrl && chain[1] == script.apiBaseUrl && chain[2] == env.apiBaseUrl;
    assert chain[3] == env.globalApiBaseUrl;
    FirstTruthy(chain, DefaultApiBaseUrl)
  }

  /** The microsite: options, then the data attribute, then the page's
      host name. */
  function Microsite(options: InitOptions, script: ScriptData, hostname: string): (r: string)
    ensures options.microsite != "" ==> r == options.microsite
    ensures options.microsite == "" && script.microsite != "" ==> r == script.microsite
    ensures options.microsite == "" && script.microsite == "" ==> r == hostname
  {
    var chain := [options.microsite, script.microsite];
    assert chain[0] == options.microsite && chain[1] == script.microsite;
    FirstTruthy(chain, hostname)
  }

  /** The outcome of `GET /api/widget-config/domain/:domain`: a 2xx reply
      with its `projectId` (empty when missing), a reply that is not 2xx,
      or a failed request. */
  datatype DomainLookup = LookupOk(projectId: string) | LookupNotOk | LookupThrew

  /** The manually set project: `data-project`, then `data-project-id`. */
  function ManualProjectId(script: ScriptData): (r: string)
    ensures script.project != "" ==> r == script.project
    ensures script.project == "" ==> r == script.projectIdAttr
  {
    var chain := [script.project, script.projectIdAttr];
    assert chain[0] == script.project && chain[1] == script.projectIdAttr;
    FirstTruthy(chain, "")
  }

  /** The project before any lookup: options, then the two data
      attributes, then the build-time default. */
  function ConfiguredProjectId(options: InitOptions, script: ScriptData, env: Environment): (r: string)
    ensures options.projectId != "" ==> r == options.projectId
    ensures options.projectId == "" && ManualProjectId(script) != "" ==> r == ManualProjectId(script)
    ensures options.projectId == "" && ManualProjectId(script) == "" ==> r == env.defaultProjectId
  {
    var chain := [options.projectId, script.project, script.projectIdAttr, env.defaultProjectId];
    assert chain[0] == options.projectId && chain[1] == script.project;
    assert chain[2] == script.projectIdAttr && chain[3] == env.defaultProjectId;
    FirstTruthy(chain, "")
  }

  /** Whether `init` asks the API which project the page's domain is. */
  predicate NeedsDomainLookup(options: InitOptions, script: ScriptData, env: Environment)
  {
    var configured := ConfiguredProjectId(options, script, env);
    ManualProjectId(script) == "" && (configured == "" || configured == "default")
  }

  /** The project chosen by a domain lookup. */
  function ProjectFromLookup(lookup: DomainLookup, hostname: string): (r: string)
    ensures lookup.LookupOk? && lookup.projectId != "" ==> r == lookup.projectId
    ensures lookup.LookupOk? && lookup.projectId == "" ==> r == hostname
    ensures lookup.LookupNotOk? ==> r == hostname
    ensures lookup.LookupThrew? ==> r == (if hostname != "" then hostname else "default")
    ensures lookup.LookupThrew? ==> r != ""
  {
    match lookup
    case LookupOk(p) => if p != "" then p else hostname
    case LookupNotOk => hostname
    case LookupThrew => if hostname != "" then hostname else "default"
  }

  /** The project `init` settles on. A data attribute beats everything,
      even the value "default"; otherwise options and the build-time
      default are used unless they are empty or "default", in which case the
      domain lookup decides. */
  function ProjectIdFor(options: InitOptions, script: ScriptData, env: Environment,
                        hostname: string, lookup: DomainLookup): (r: string)
    ensures script.project != "" ==> r == script.project
    ensures script.project == "" && script.projectIdAttr != "" ==> r == script.projectIdAttr
    ensures ManualProjectId(script) == "" && !NeedsDomainLookup(options, script, env) ==>
              r == ConfiguredProjectId(options, script, env) && r != "" && r != "default"
    ensures NeedsDomainLookup(options, script, env) ==> r == ProjectFromLookup(lookup, hostname)
    ensures ManualProjectId(script) == "" && options.projectId != "" && options.projectId != "default" ==>
              r == options.projectId
  {
    var manual := ManualProjectId(script);
    if manual != "" then manual
    else if NeedsDomainLookup(options, script, env) then ProjectFromLookup(lookup, hostname)
    else ConfiguredProjectId(options, script, env)
  }

  /** The project detection step of `init`: the configured project, then
      the manual attribute over it, then the domain lookup when nothing
      usable is left. `lookedUp` says whether the lookup was made. */
  method DetectProjectId(options: InitOptions, script: ScriptData, env: Environment,
                         hostname: string, lookup: DomainLookup)
    returns (projectId: string, lookedUp: bool)
    ensures projectId == ProjectIdFor(options, script, env, hostname, lookup)
    ensures lookedUp <==> NeedsDomainLookup(options, script, env)
  {
    projectId := ConfiguredProjectId(options, script, env);
    var manual := ManualProjectId(script);
    lookedUp := false;
    if manual != "" {
      projectId := manual;
    } else if projectId == "" || projectId == "default" {
      lookedUp := true;
      match lookup
      case LookupOk(p) =>
        projectId := if p != "" then p else hostname;
      case LookupNotOk =>
        projectId := hostname;
      case LookupThrew =>
        projectId := if hostname != "" then hostname else "default";
    }
  }

  // ---------------------------------------------------------------- theme

  /** The outcome of fetching a project's configuration: a 2xx reply with
      its parsed body, a reply that is not 2xx, or a failed request or body
      parse. */
  datatype FetchOutcome = FetchOk(body: Json) | FetchNotOk | FetchFailed

  /** `fetchWidgetTheme`: the parsed body of a 2xx reply, the empty object
      otherwise. */
  function FetchWidgetTheme(outcome: FetchOutcome): (theme: Json)
    ensures outcome.FetchOk? ==> theme == outcome.body
    ensures !outcome.FetchOk? ==> theme == JObj(map[])
  {
    if outcome.FetchOk? then outcome.body else JObj(map[])
  }

  /** The own keys an object spread copies; other values copy nothing. */
  function Spread(j: Json): map<string, Json>
  {
    if j.JObj? then j.fields else map[]
  }

  /** Whether the page-detected property information is present and has
      at least one key. */
  predicate HasDetected(detected: Option<map<string, Json>>)
  {
    detected.Some? && detected.value != map[]
  }

  /** The `propertyInfo` of the merged theme: the detected information when
      there is some, else the remote theme's when truthy, else `{}`. */
  function MergedPropertyInfo(remote: Json, detected: Option<map<string, Json>>): Json
  {
    if HasDetected(detected) then JObj(detected.value)
    else if remote.JObj? && "propertyInfo" in remote.fields && Truthy(remote.fields["propertyInfo"])
    then remote.fields["propertyInfo"]
    else JObj(map[])
  }

  /** `{ ...remoteTheme, ...themeOverrides, propertyInfo: … }`. */
  function MergeTheme(remote: Json, overrides: Json, detected: Option<map<string, Json>>): (theme: map<string, Json>)
    ensures "propertyInfo" in theme && theme["propertyInfo"] == MergedPropertyInfo(remote, detected)
    ensures forall k :: k != "propertyInfo" ==> (k in theme <==> k in Spread(remote) || k in Spread(overrides))
    ensures forall k :: k != "propertyInfo" && k in Spread(overrides) ==> theme[k] == Spread(overrides)[k]
    ensures forall k :: k != "propertyInfo" && k !in Spread(overrides) && k in Spread(remote) ==>
              theme[k] == Spread(remote)[k]
  {
    (Spread(remote) + Spread(overrides))["propertyInfo" := MergedPropertyInfo(remote, detected)]
  }

  /** Detected property information beats both the caller's overrides and
      the remote theme. */
  lemma DetectedPropertyWins(remote: Json, overrides: Json, detected: Option<map<string, Json>>)
    requires HasDetected(detected)
    ensures MergeTheme(remote, overrides, detected)["propertyInfo"] == JObj(detected.value)
  {
  }

  /** A `propertyInfo` among the caller's theme overrides never reaches the
      merged theme: two override objects that differ only there give the
      same theme. */
  lemma {:induction false} OverriddenPropertyInfoIgnored(remote: Json, overrides1: map<string, Json>,
                                                        overrides2: map<string, Json>,
                                                        detected: Option<map<string, Json>>)
    requires overrides1 - {"propertyInfo"} == overrides2 - {"propertyInfo"}
    ensures MergeTheme(remote, JObj(overrides1), detected) == MergeTheme(remote, JObj(overrides2), detected)
  {
    var t1 := MergeTheme(remote, JObj(overrides1), detected);
    var t2 := MergeTheme(remote, JObj(overrides2), detected);
    forall k | k != "propertyInfo"
      ensures k in overrides1 <==> k in overrides2
      ensures k in overrides1 ==> overrides1[k] == overrides2[k]
    {
      assert k in overrides1 <==> k in overrides1 - {"propertyInfo"};
      assert k in overrides2 <==> k in overrides2 - {"propertyInfo"};
      if k in overrides1 {
        assert overrides1[k] == (overrides1 - {"propertyInfo"})[k];
        assert overrides2[k] == (overrides2 - {"propertyInfo"})[k];
      }
    }
    assert t1.Keys == t2.Keys;
  }

  // ---------------------------------------------------------------- registry

  /** A mounted widget. It remembers what it was rendered with and the
      registry it removes itself from. */
  class WidgetInstance {
    const projectId: string
    const apiBaseUrl: string
    const microsite: string
    const theme: map<string, Json>
    /** Whether the caller supplied the element to mount into. */
    const hasTarget: bool
    const registry: WidgetRegistry
    /** Whether the widget's React root is rendered. */
    var rendered: bool
    /** Whether the widget's own host element, created when no target was
        given, is in the page. */
    var hostInPage: bool

    constructor(registry: WidgetRegistry, apiBaseUrl: string, projectId: string, microsite: string,
                theme: map<string, Json>, hasTarget: bool)
      ensures this.registry == registry && this.projectId == projectId
      ensures this.apiBaseUrl == apiBaseUrl && this.microsite == microsite && this.theme == theme
      ensures this.hasTarget == hasTarget
      ensures rendered && hostInPage == !hasTarget
    {
      this.registry := registry;
      this.apiBaseUrl := apiBaseUrl;
      this.projectId := projectId;
      this.microsite := microsite;
      this.theme := theme;
      this.hasTarget := hasTarget;
      rendered := true;
      hostInPage := !hasTarget;
    }

    /** `destroy`: unmount, drop the registry entry for this project
        (whatever instance it now holds), and remove the host element the
        widget created. */
    method Destroy()
      requires registry.Valid()
      modifies this, registry
      ensures registry.Valid()
      ensures registry.widgets == old(registry.widgets) - {projectId}
      ensures !rendered
      ensures hasTarget ==> hostInPage == old(hostInPage)
      ensures !hasTarget ==> !hostInPage
    {
      rendered := false;
      registry.widgets := registry.widgets - {projectId};
      if !hasTarget {
        hostInPage := false;
      }
    }
  }

  /** The module-level `mountedWidgets` map. */
  class WidgetRegistry {
    var widgets: map<string, WidgetInstance>

    /** Every entry is the widget of the project it is filed under, and it
        belongs to this registry. */
    predicate Valid()
      reads this
    {
      forall k :: k in widgets ==> widgets[k].projectId == k && widgets[k].registry == this
    }

    constructor()
      ensures Valid() && widgets == map[]
    {
      widgets := map[];
    }

    /** `mountWidget`: a project already mounted gets its existing widget
        back and nothing is created; otherwise a new widget is rendered and
        filed under its project, and no other entry changes. */
    method Mount(apiBaseUrl: string, projectId: string, microsite: string,
                 theme: map<string, Json>, hasTarget: bool)
      returns (inst: WidgetInstance)
      requires Valid()
      modifies this
      ensures Valid()
      ensures inst.projectId == projectId && inst.registry == this
      ensures projectId in old(widgets) ==> inst == old(widgets)[projectId] && widgets == old(widgets)
      ensures projectId !in old(widgets) ==>
                && fresh(inst)
                && widgets == old(widgets)[projectId := inst]
                && inst.apiBaseUrl == apiBaseUrl && inst.microsite == microsite
                && inst.theme == theme && inst.hasTarget == hasTarget
                && inst.rendered && inst.hostInPage == !hasTarget
    {
      if projectId in widgets {
        return widgets[projectId];
      }
      inst := new WidgetInstance(this, apiBaseUrl, projectId, microsite, theme, hasTarget);
      widgets := widgets[projectId := inst];
    }

    /** `init`: settle the API base URL, the microsite and the project (the
        latter step by step, asking the API for the domain's project when
        needed), fetch the remote theme, merge it with the caller's
        overrides and the detected property, and mount. `lookedUp` says
        whether the domain lookup was made and `reported` whether the
        detected property was posted back to the API. */
    method Init(options: InitOptions, script: ScriptData, env: Environment, hostname: string,
                lookup: DomainLookup, themeFetch: FetchOutcome, detected: Option<map<string, Json>>)
      returns (inst: WidgetInstance, lookedUp: bool, reported: bool)
      requires Valid()
      modifies this
      ensures Valid()
      ensures inst.projectId == ProjectIdFor(options, script, env, hostname, lookup)
      ensures lookedUp <==> NeedsDomainLookup(options, script, env)
      ensures reported <==> HasDetected(detected)
      ensures inst.projectId in old(widgets) ==> inst == old(widgets)[inst.projectId] && widgets == old(widgets)
      ensures inst.projectId !in old(widgets) ==>
                && fresh(inst)
                && widgets == old(widgets)[inst.projectId := inst]
                && inst.apiBaseUrl == ApiBaseUrl(options, script, env)
                && inst.microsite == Microsite(options, script, hostname)
                && inst.theme == MergeTheme(FetchWidgetTheme(themeFetch),
                                            if Truthy(options.theme) then options.theme else JObj(map[]),
                                            detected)
                && inst.hasTarget == options.hasTarget
    {
      var apiBaseUrl := ApiBaseUrl(options, script, env);
      var microsite := Microsite(options, script, hostname);
      var projectId;
      projectId, lookedUp := DetectProjectId(options, script, env, hostname, lookup);
      var overrides := if Truthy(options.theme) then options.theme else JObj(map[]);
      var remote := FetchWidgetTheme(themeFetch);
      reported := detected.Some? && apiBaseUrl != "" && detected.value != map[];
      var theme := MergeTheme(remote, overrides, detected);
      inst := Mount(apiBaseUrl, projectId, microsite, theme, options.hasTarget);
    }
  }
}
