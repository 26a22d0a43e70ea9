/** The decision `axiom_webhook` takes for one alert (app.py:1083-1202), with the request,
    the logging, the enrichment query and the message text left out: skip a resolved alert
    that is not wanted, drop an alert a filter catches, or send it with a tag, a runbook
    and a target chat and topic. */
module Webhook {
  import opened PyJson
  import opened PyStr
  import opened SeqSets
  import opened Payload
  import opened AlertContext
  import opened Template
  import opened RouteConfig
  import opened Classify
  import opened Routing

  /** What a delivered alert carries into `format_axiom_alert`. */
  datatype Alert = Alert(
    name: string,
    status: Option<string>,
    count: Json,
    tsStart: string,
    tsEnd: string,
    servers: seq<string>,
    services: seq<string>,
    samples: seq<string>,
    topError: Option<string>,
    tag: string,
    hostService: string,
    runbook: seq<string>)

  datatype Decision = Skip | Drop | Send(alert: Alert, target: Target)

  /** `_coerce_bool(defaults.get("include_resolved"), settings.alertbot_include_resolved)`. */
  function IncludeResolved(routes: Dict, settings: Settings): bool {
    CoerceBool(At(Defaults(routes), "include_resolved"), settings.includeResolved)
  }

  /** A resolved alert that the configuration does not want. */
  predicate SkipsResolved(name: string, routes: Dict, settings: Settings) {
    AlertStatus(name).0 == Some("resolved") && !IncludeResolved(routes, settings)
  }

  /** `normalized_name or _normalize_monitor_name(monitor_name)`. */
  function RouteMonitor(name: string): (r: string)
    ensures r == AlertStatus(name).1 && r == NormalizeMonitorName(name)
  {
    NormalizeIsStatusRest(name);
    var normalized := AlertStatus(name).1;
    if normalized != "" then normalized else NormalizeMonitorName(name)
  }

  /** The service guessed from the monitor name when the matches name none. */
  function WithGuess(f: Fields, monitor: string): (g: Fields)
    ensures g.(services := f.services) == f
    ensures f.services != [] ==> g.services == f.services
    ensures f.services == [] ==> (g.services != [] <==> GuessServiceFromMonitor(monitor).Some?)
    ensures g.services != f.services ==> g.services == [GuessServiceFromMonitor(monitor).value]
  {
    if f.services != [] then f
    else
      match GuessServiceFromMonitor(monitor)
      case Some(service) => f.(services := [service])
      case None => f
  }

  /** Whether the enrichment query runs: no message was found, a token and a dataset are
      set, and there is a service to ask about. */
  predicate Enriches(f: Fields, settings: Settings) {
    f.messages == [] && settings.mgmtToken != "" && settings.dataset != "" && LeastOr(f.services) != ""
  }

  /** The fields after the enrichment rows, if the query ran and returned any, are merged in. */
  function Enrich(f: Fields, settings: Settings, enrichment: seq<Dict>): Fields {
    if Enriches(f, settings) && enrichment != [] then Merge(f, RowsFields(enrichment)) else f
  }

  /** The enrichment rows count as if they had come with the alert: merging them after the
      match records is extracting the fields of records and rows together. */
  lemma {:induction false} EnrichLikeMoreRecords(rows: seq<Dict>, settings: Settings, enrichment: seq<Dict>)
    requires Enriches(RowsFields(rows), settings) && enrichment != []
    ensures Enrich(RowsFields(rows), settings, enrichment) == RowsFields(rows + enrichment)
  {
    RowsFieldsAppend(rows, enrichment);
  }

  /** `[_normalize_service_name(s) for s in services if s]`. */
  function NormalizedList(services: seq<string>): (r: seq<string>)
    ensures forall x :: x in r <==> exists s :: s in services && s != "" && x == NormalizeServiceName(s)
  {
    if services == [] then []
    else
      var init := services[..|services| - 1];
      var last := services[|services| - 1];
      assert services == init + [last];
      var rest := NormalizedList(init);
      if last == "" then rest else rest + [NormalizeServiceName(last)]
  }

  /** The set `{_normalize_service_name(s) for s in services if s}`. */
  function NormalizedServices(services: seq<string>): (r: seq<string>)
    ensures Distinct(r)
    ensures forall x :: x in r ==> !Contains(x, "—")
    ensures forall x :: x in r <==> exists s :: s in services && s != "" && x == NormalizeServiceName(s)
  {
    Dedup(NormalizedList(services))
  }

  /** The fields the decision works on: extracted from the match records, with the guessed
      service and the enrichment rows, and normalised service names. */
  function AlertFieldsOf(matches: seq<Dict>, monitor: string, settings: Settings, enrichment: seq<Dict>): Fields {
    var f := Enrich(WithGuess(RowsFields(Records(matches)), monitor), settings, enrichment);
    f.(services := NormalizedServices(f.services))
  }

  /** The enrichment rows are ignored when the matches carry a message: the query is never
      made. */
  lemma {:induction false} EnrichmentUnusedWithMessages(matches: seq<Dict>, monitor: string, settings: Settings, e1: seq<Dict>, e2: seq<Dict>)
    requires RowsFields(Records(matches)).messages != []
    ensures AlertFieldsOf(matches, monitor, settings, e1) == AlertFieldsOf(matches, monitor, settings, e2)
  {
  }

  /** `top_error`, when `defaults.top_error` leaves it enabled. */
  function TopError(f: Fields, defaults: Dict): Option<string> {
    if CoerceBool(At(defaults, "top_error"), true) then MostCommon(f.messages) else None
  }

  /** `_most_common(values) or ""`: empty for no values, otherwise the most common value. */
  ghost predicate TopText(values: seq<string>, text: string) {
    if values == [] then text == "" else IsMostCommon(values, text)
  }

  /** The context the rules see: the routed monitor name, the top error, status, user
      agent and path, and the displayed host and service. */
  function ContextOf(f: Fields, monitor: string, defaults: Dict): (r: Dict)
    ensures forall k :: 0 <= k < |r| ==> r[k].1.JStr?
    ensures At(r, "title") == JStr(monitor)
    ensures At(r, "host") == JStr(LeastOr(f.servers)) && At(r, "service") == JStr(LeastOr(f.services))
    ensures At(r, "status").JStr? && TopText(f.statuses, At(r, "status").s)
    ensures At(r, "user_agent").JStr? && TopText(f.userAgents, At(r, "user_agent").s)
    ensures At(r, "path").JStr? && TopText(f.paths, At(r, "path").s)
    ensures At(r, "message").JStr?
    ensures CoerceBool(At(defaults, "top_error"), true) ==> TopText(f.messages, At(r, "message").s)
    ensures !CoerceBool(At(defaults, "top_error"), true) ==> At(r, "message") == JStr("")
  {
    MostCommonSpec(f.statuses);
    MostCommonSpec(f.userAgents);
    MostCommonSpec(f.paths);
    MostCommonSpec(f.messages);
    var hs := FormatHostService(f.servers, f.services);
    var message := TopError(f, defaults).GetOr("");
    var status := MostCommon(f.statuses).GetOr("");
    var userAgent := MostCommon(f.userAgents).GetOr("");
    var path := MostCommon(f.paths).GetOr("");
    ContextDictMessage(monitor, message, status, userAgent, path, hs.0, hs.1);
    ContextDictStatus(monitor, message, status, userAgent, path, hs.0, hs.1);
    ContextDictUserAgent(monitor, message, status, userAgent, path, hs.0, hs.1);
    ContextDictPath(monitor, message, status, userAgent, path, hs.0, hs.1);
    ContextDictHost(monitor, message, status, userAgent, path, hs.0, hs.1);
    ContextDictService(monitor, message, status, userAgent, path, hs.0, hs.1);
    ContextDict(monitor, message, status, userAgent, path, hs.0, hs.1)
  }

  /** The seven entries of the context, in the order the source builds them. */
  function ContextDict(title: string, message: string, status: string, userAgent: string, path: string,
                       host: string, service: string): (r: Dict)
    ensures forall k :: 0 <= k < |r| ==> r[k].1.JStr?
    ensures At(r, "title") == JStr(title)
  {
    [("title", JStr(title)), ("message", JStr(message)), ("status", JStr(status)),
     ("user_agent", JStr(userAgent)), ("path", JStr(path)), ("host", JStr(host)),
     ("service", JStr(service))]
  }

  /** The `message` key reads back the value it was built with; so do the five lemmas after
      this one for their keys. */
  lemma {:induction false} ContextDictMessage(title: string, message: string, status: string, userAgent: string, path: string,
                       host: string, service: string)
    ensures At(ContextDict(title, message, status, userAgent, path, host, service), "message") == JStr(message)
  {
    GetAt(ContextDict(title, message, status, userAgent, path, host, service), 1);
  }

  lemma {:induction false} ContextDictStatus(title: string, message: string, status: string, userAgent: string, path: string,
                       host: string, service: string)
    ensures At(ContextDict(title, message, status, userAgent, path, host, service), "status") == JStr(status)
  {
    GetAt(ContextDict(title, message, status, userAgent, path, host, service), 2);
  }

  lemma {:induction false} ContextDictUserAgent(title: string, message: string, status: string, userAgent: string, path: string,
                       host: string, service: string)
    ensures At(ContextDict(title, message, status, userAgent, path, host, service), "user_agent") == JStr(userAgent)
  {
    GetAt(ContextDict(title, message, status, userAgent, path, host, service), 3);
  }

  lemma {:induction false} ContextDictPath(title: string, message: string, status: string, userAgent: string, path: string,
                       host: string, service: string)
    ensures At(ContextDict(title, message, status, userAgent, path, host, service), "path") == JStr(path)
  {
    GetAt(ContextDict(title, message, status, userAgent, path, host, service), 4);
  }

  lemma {:induction false} ContextDictHost(title: string, message: string, status: string, userAgent: string, path: string,
                       host: string, service: string)
    ensures At(ContextDict(title, message, status, userAgent, path, host, service), "host") == JStr(host)
  {
    GetAt(ContextDict(title, message, status, userAgent, path, host, service), 5);
  }

  lemma {:induction false} ContextDictService(title: string, message: string, status: string, userAgent: string, path: string,
                       host: string, service: string)
    ensures At(ContextDict(title, message, status, userAgent, path, host, service), "service") == JStr(service)
  {
    GetAt(ContextDict(title, message, status, userAgent, path, host, service), 6);
  }

  /** The tag of `tags["user_impact"] if is_p1 else tags["service_errors"]`. */
  function TagFor(routes: Dict, p1: bool): (t: string)
    ensures p1 ==> t == Tags(routes).0
    ensures !p1 ==> t == Tags(routes).1
    ensures MappingSection(routes, "tags") == [] ==> t == if p1 then DefaultUserImpactTag else DefaultServiceErrorsTag
  {
    if p1 then Tags(routes).0 else Tags(routes).1
  }

  /** The send step: profiles, priority, tag, runbook and target of an alert that passed
      the filters. */
  function Deliver(a: AlertFields, status: Option<string>, normalized: string, monitor: string, f: Fields,
                   context: Dict, routes: Dict, settings: Settings, search: (string, string) -> bool): (r: Py<Decision>)
    ensures r.Ok? ==> r.value.Send? && r.value.alert.status == status && r.value.alert.services == f.services
    ensures r.Ok? ==> r.value.alert.tag == Tags(routes).0 || r.value.alert.tag == Tags(routes).1
    ensures r.Ok? ==> IsP1(Profiles(routes), ServiceProfiles(Services(routes), f.services), context, search).Ok?
    ensures r.Ok? && Tags(routes).0 != Tags(routes).1 ==>
      (r.value.alert.tag == Tags(routes).0 <==> IsP1(Profiles(routes), ServiceProfiles(Services(routes), f.services), context, search).value)
    ensures r.Ok? ==> |r.value.alert.runbook| == |ResolveRunbook(routes, f.services, ServiceProfiles(Services(routes), f.services))|
    ensures r.Ok? ==> ResolveTarget(routes, settings, f.services, f.servers, monitor) == Ok(r.value.target)
  {
    var names := ServiceProfiles(Services(routes), f.services);
    var p1 :- IsP1(Profiles(routes), names, context, search);
    var hs := FormatHostService(f.servers, f.services);
    var steps := ResolveRunbook(routes, f.services, names);
    var runbook :- RenderRunbook(steps, Arguments(hs.0, hs.1, monitor));
    var target :- ResolveTarget(routes, settings, f.services, f.servers, monitor);
    var defaults := Defaults(routes);
    Ok(Send(Alert(if monitor != "" then monitor else normalized, status, a.matchedCount, a.tsStart, a.tsEnd,
                  f.servers, f.services, SampleMessages(f.messages, CoerceInt(At(defaults, "sample_count"), 2)),
                  TopError(f, defaults), TagFor(routes, p1), hs.2, runbook),
            target))
  }

  /** The decision of `axiom_webhook` for one payload. `decoded` is the JSON reading of a
      string event body, `enrichment` the rows the enrichment query returns, and `search`
      the regular-expression search of the `regex` operator. */
  function Decide(payload: Dict, decoded: Option<Json>, routes: Dict, settings: Settings,
                  enrichment: seq<Dict>, search: (string, string) -> bool): (r: Py<Decision>)
    ensures r == Ok(Skip) <==> SkipsResolved(ExtractAlertFields(payload, decoded).name, routes, settings)
    ensures r.Ok? && r.value.Send? ==>
      (r.value.alert.status == Some("resolved") ==> IncludeResolved(routes, settings))
      && (r.value.alert.tag == Tags(routes).0 || r.value.alert.tag == Tags(routes).1)
      && Distinct(r.value.alert.services)
      && (forall s :: s in r.value.alert.services ==> !Contains(s, "—"))
  {
    var a := ExtractAlertFields(payload, decoded);
    var (status, normalized) := AlertStatus(a.name);
    if status == Some("resolved") && !IncludeResolved(routes, settings) then Ok(Skip)
    else
      var monitor := RouteMonitor(a.name);
      Pass(a, status, normalized, monitor, AlertFieldsOf(a.matches, monitor, settings, enrichment), routes, settings, search)
  }

  /** The steps after the resolved filter: the drop rules, then the send step. */
  function Pass(a: AlertFields, status: Option<string>, normalized: string, monitor: string, f: Fields,
                routes: Dict, settings: Settings, search: (string, string) -> bool): (r: Py<Decision>)
    ensures r != Ok(Skip)
    ensures r.Ok? && r.value.Send? ==>
      && r.value.alert.status == status && r.value.alert.services == f.services
      && (r.value.alert.tag == Tags(routes).0 || r.value.alert.tag == Tags(routes).1)
  {
    var context := ContextOf(f, monitor, Defaults(routes));
    var drop :- ShouldDrop(routes, context, search);
    if drop then Ok(Drop)
    else Deliver(a, status, normalized, monitor, f, context, routes, settings, search)
  }

  /** Past the resolved filter, the alert is dropped exactly when a drop rule catches its
      context, and a drop rule that raises makes the request fail. */
  lemma {:induction false} PassDrop(a: AlertFields, status: Option<string>, normalized: string, monitor: string, f: Fields,
                 routes: Dict, settings: Settings, search: (string, string) -> bool)
    ensures var r := Pass(a, status, normalized, monitor, f, routes, settings, search);
      var drop := ShouldDrop(routes, ContextOf(f, monitor, Defaults(routes)), search);
      && (r == Ok(Drop) <==> drop == Ok(true))
      && (drop.Raises? ==> r.Raises?)
  {
  }

  /** An alert is dropped exactly when it is wanted and a drop rule catches its context; a
      drop rule that raises makes the request fail. */
  lemma {:induction false} DecideDrop(payload: Dict, decoded: Option<Json>, routes: Dict, settings: Settings,
                   enrichment: seq<Dict>, search: (string, string) -> bool)
    requires !SkipsResolved(ExtractAlertFields(payload, decoded).name, routes, settings)
    ensures var a := ExtractAlertFields(payload, decoded);
      var monitor := RouteMonitor(a.name);
      var context := ContextOf(AlertFieldsOf(a.matches, monitor, settings, enrichment), monitor, Defaults(routes));
      && (Decide(payload, decoded, routes, settings, enrichment, search) == Ok(Drop) <==> ShouldDrop(routes, context, search) == Ok(true))
      && (ShouldDrop(routes, context, search).Raises? ==> Decide(payload, decoded, routes, settings, enrichment, search).Raises?)
  {
    var a := ExtractAlertFields(payload, decoded);
    var monitor := RouteMonitor(a.name);
    PassDrop(a, AlertStatus(a.name).0, AlertStatus(a.name).1, monitor, AlertFieldsOf(a.matches, monitor, settings, enrichment),
             routes, settings, search);
  }
}
