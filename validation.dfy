/** The cross-checks `validate_routes_config` runs after the schema check
    (routes_validation.py): runbook placeholders, references between groups, topics,
    profiles and services, and list values of the list operators. Each check walks the
    configuration in mapping order and collects its messages; a value Python cannot hash
    or iterate makes the check raise `TypeError`. */
module ConfigValidation {
  import opened PyJson
  import opened PyStr
  import opened SeqSets
  import opened Template
  import opened RouteConfig
  import opened Classify

  // ----- runbooks -----

  /** The lines of an entry's runbook: `[str(line) for line in entry.get("runbook", [])]`
      when the entry is a mapping and its runbook a list. */
  function EntryRunbook(entry: Json): seq<string> {
    if !entry.JObj? then []
    else
      var runbook := GetOr(entry.entries, "runbook", JList([]));
      if runbook.JList? then Lines(runbook.items) else []
  }

  /** The runbooks of the values of a mapping, in mapping order. */
  function RunbookLists(entries: Dict): (r: seq<seq<string>>)
    ensures |r| == |entries| && forall i :: 0 <= i < |entries| ==> r[i] == EntryRunbook(entries[i].1)
  {
    seq(|entries|, i requires 0 <= i < |entries| => EntryRunbook(entries[i].1))
  }

  /** The runbook lines of the values of a mapping, in mapping order. */
  function ValuesRunbooks(entries: Dict): seq<string> {
    Concat(RunbookLists(entries))
  }

  /** Every line of every value's runbook is collected. */
  lemma {:induction false} ValuesRunbooksHas(entries: Dict, i: nat)
    requires i < |entries|
    ensures forall x :: x in EntryRunbook(entries[i].1) ==> x in ValuesRunbooks(entries)
  {
    ConcatHas(RunbookLists(entries), i);
  }

  /** The runbook lines of a section that is a mapping. */
  function SectionRunbooks(config: Dict, name: string): seq<string> {
    var section := GetOr(config, name, JObj([]));
    if section.JObj? then ValuesRunbooks(section.entries) else []
  }

  /** `_iter_runbooks(config)`: the default runbook, then the profiles' runbooks, then the
      services' runbooks. */
  function IterRunbooks(config: Dict): seq<string> {
    EntryRunbook(GetOr(config, "defaults", JObj([]))) + SectionRunbooks(config, "profiles") + SectionRunbooks(config, "services")
  }

  /** The loop of `_iter_runbooks` over the values of one section. */
  method ValuesRunbooksLoop(entries: Dict) returns (r: seq<string>)
    ensures r == ValuesRunbooks(entries)
  {
    ghost var parts := RunbookLists(entries);
    r := [];
    var i := 0;
    while i < |entries|
      invariant 0 <= i <= |entries|
      invariant r == Concat(parts[..i])
    {
      ConcatSnoc(parts, i);
      r := r + EntryRunbook(entries[i].1);
      i := i + 1;
    }
    assert parts[..i] == parts;
  }

  /** `_iter_runbooks(config)`, section by section. */
  method CollectRunbooks(config: Dict) returns (runbooks: seq<string>)
    ensures runbooks == IterRunbooks(config)
  {
    runbooks := EntryRunbook(GetOr(config, "defaults", JObj([])));
    var profiles := GetOr(config, "profiles", JObj([]));
    var profileLines: seq<string> := [];
    if profiles.JObj? {
      profileLines := ValuesRunbooksLoop(profiles.entries);
    }
    assert profileLines == SectionRunbooks(config, "profiles");
    var services := GetOr(config, "services", JObj([]));
    var serviceLines: seq<string> := [];
    if services.JObj? {
      serviceLines := ValuesRunbooksLoop(services.entries);
    }
    assert serviceLines == SectionRunbooks(config, "services");
    runbooks := runbooks + profileLines + serviceLines;
  }

  /** A runbook the engine finds in a configured section is among the lines the
      validator checks. */
  lemma {:induction false} SectionRunbookListed(routes: Dict, name: string, key: string)
    requires RunbookOf(MappingSection(routes, name), key).Some?
    ensures forall x :: x in Lines(RunbookOf(MappingSection(routes, name), key).value) ==> x in SectionRunbooks(routes, name)
  {
    var table := MappingSection(routes, name);
    var found := Get(table, key);
    assert found.Some?;
    GetSpec(table, key);
    var i :| 0 <= i < |table| && table[i] == (key, found.value);
    assert GetOr(routes, name, JObj([])) == JObj(table);
    assert EntryRunbook(table[i].1) == Lines(RunbookOf(table, key).value);
    ValuesRunbooksHas(table, i);
  }

  /** Every runbook line the engine can select for an alert is a line the validator
      checks: services, profiles and defaults are read from the same places. */
  lemma {:induction false} ResolvedRunbookListed(routes: Dict, services: seq<string>, profileNames: seq<string>)
    ensures forall x :: x in ResolveRunbook(routes, services, profileNames) ==> x in IterRunbooks(routes)
  {
    var sorted := Sort(services);
    var first := FirstRunbook(Services(routes), sorted);
    if first.Some? {
      SectionRunbookListed(routes, "services", sorted[RunbookIndex(Services(routes), sorted)]);
    } else if FirstRunbook(Profiles(routes), profileNames).Some? {
      SectionRunbookListed(routes, "profiles", profileNames[RunbookIndex(Profiles(routes), profileNames)]);
    } else {
      assert Defaults(routes) != [] ==> GetOr(routes, "defaults", JObj([])) == JObj(Defaults(routes));
    }
  }

  // ----- placeholders -----

  const AllowedPlaceholders: set<string> := {"host", "service", "container", "monitor"}

  function UnknownPlaceholder(name: string, line: string): string {
    "Unknown placeholder '{" + name + "}' in runbook: " + line
  }

  function InvalidSyntax(line: string, message: string): string {
    "Invalid runbook placeholder syntax: " + line + " (" + message + ")"
  }

  /** A scanned item whose replacement field names something outside the allowed set. */
  predicate Unknown(item: Item) {
    item.field.Some? && item.field.value.name !in AllowedPlaceholders
  }

  /** One message per unknown field of a line, in order. */
  function FieldErrors(items: seq<Item>, line: string): (r: seq<string>)
    ensures r == [] <==> forall i :: 0 <= i < |items| ==> !Unknown(items[i])
    ensures forall i :: 0 <= i < |items| && Unknown(items[i]) ==> UnknownPlaceholder(items[i].field.value.name, line) in r
    ensures forall e :: e in r ==> exists i :: 0 <= i < |items| && Unknown(items[i]) && e == UnknownPlaceholder(items[i].field.value.name, line)
  {
    if items == [] then []
    else
      var init := items[..|items| - 1];
      var last := items[|items| - 1];
      assert forall i :: 0 <= i < |init| ==> init[i] == items[i];
      var rest := FieldErrors(init, line);
      if Unknown(last) then rest + [UnknownPlaceholder(last.field.value.name, line)] else rest
  }

  /** The messages for one runbook line: its unknown fields, then its syntax error. The
      scan is lazy, so the fields before a syntax error are reported too. */
  function LineErrors(line: string): seq<string> {
    var p := Scan(line);
    FieldErrors(p.items, line) + (if p.error.Some? then [InvalidSyntax(line, p.error.value)] else [])
  }

  /** A line passes exactly when it scans without error and names only allowed fields; a
      syntax error is the last message. */
  lemma {:induction false} LineErrorsSpec(line: string)
    ensures LineErrors(line) == [] <==> Scan(line).error.None? && forall i :: 0 <= i < |Scan(line).items| ==> !Unknown(Scan(line).items[i])
    ensures Scan(line).error.Some? ==> LineErrors(line)[|LineErrors(line)| - 1] == InvalidSyntax(line, Scan(line).error.value)
  {
  }

  /** The messages of each line. */
  function LineErrorLists(lines: seq<string>): (r: seq<seq<string>>)
    ensures |r| == |lines| && forall i :: 0 <= i < |lines| ==> r[i] == LineErrors(lines[i])
  {
    seq(|lines|, i requires 0 <= i < |lines| => LineErrors(lines[i]))
  }

  /** `_validate_placeholders` over a list of lines. */
  function PlaceholderErrors(lines: seq<string>): seq<string> {
    Concat(LineErrorLists(lines))
  }

  /** The placeholder check passes exactly when every line passes. */
  lemma {:induction false} PlaceholderErrorsNone(lines: seq<string>)
    ensures PlaceholderErrors(lines) == [] <==> forall i :: 0 <= i < |lines| ==> LineErrors(lines[i]) == []
  {
    ConcatEmpty(LineErrorLists(lines));
  }

  /** `_validate_placeholders(config)`. */
  function ValidatePlaceholders(config: Dict): (r: seq<string>)
    ensures r == [] <==> forall line :: line in IterRunbooks(config) ==> LineErrors(line) == []
  {
    PlaceholderErrorsNone(IterRunbooks(config));
    PlaceholderErrors(IterRunbooks(config))
  }

  /** The loop of `_validate_placeholders` over the scanned items of one line. */
  method LineErrorsLoop(line: string) returns (errors: seq<string>)
    ensures errors == LineErrors(line)
  {
    var parsed := Scan(line);
    errors := [];
    var j := 0;
    while j < |parsed.items|
      invariant 0 <= j <= |parsed.items|
      invariant errors == FieldErrors(parsed.items[..j], line)
    {
      assert parsed.items[..j + 1][..j] == parsed.items[..j];
      var item := parsed.items[j];
      if Unknown(item) {
        errors := errors + [UnknownPlaceholder(item.field.value.name, line)];
      }
      j := j + 1;
    }
    assert parsed.items[..j] == parsed.items;
    if parsed.error.Some? {
      errors := errors + [InvalidSyntax(line, parsed.error.value)];
    }
  }

  /** The loop of `_validate_placeholders` over the runbook lines. */
  method ValidatePlaceholdersLoop(config: Dict) returns (errors: seq<string>)
    ensures errors == ValidatePlaceholders(config)
  {
    var lines := CollectRunbooks(config);
    ghost var parts := LineErrorLists(lines);
    errors := [];
    var i := 0;
    while i < |lines|
      invariant 0 <= i <= |lines|
      invariant errors == Concat(parts[..i])
    {
      ConcatSnoc(parts, i);
      var lineErrors := LineErrorsLoop(lines[i]);
      errors := errors + lineErrors;
      i := i + 1;
    }
    assert parts[..i] == parts;
  }

  /** `{}` asks for a positional argument: its empty name is reported as unknown. */
  lemma {:induction false} EmptyFieldReported()
    ensures LineErrors("{}") == [UnknownPlaceholder("", "{}")]
  {
    ScanField("");
    assert "{" + "" + "}" == "{}";
  }

  /** `{container}` passes the validator, yet `_render_runbook` has no `container`
      argument: the step is sent as written. */
  lemma {:induction false} ContainerAllowedButUnrendered(v: Values)
    ensures LineErrors("{container}") == []
    ensures RenderStep("{container}", v) == Ok("{container}")
  {
    ContainerWord();
    BracedContainer();
    ScanField("container");
    RenderContainer(v);
  }

  /** The validator reads field names only: an unknown conversion such as `{host!x}`
      passes it, and rendering that step raises `ValueError`. */
  lemma {:induction false} UnknownConversionPasses(v: Values)
    ensures LineErrors("{host!x}") == []
    ensures RenderStep("{host!x}", v) == Raises(ValueError)
  {
    var m := Markup("host", Some('x'), "");
    ScanHostBangX();
    assert LineErrors("{host!x}") == FieldErrors([Item("", Some(m))], "{host!x}");
    HostField(m, v);
    FormatOneField(m, v, TopDepth);
  }

  /** The validator does not read format specs either: `{host:d}` passes it, and rendering
      that step raises `ValueError`, since `d` is not a presentation type for a text. */
  lemma {:induction false} UnknownSpecTypePasses(v: Values)
    ensures LineErrors("{host:d}") == []
    ensures RenderStep("{host:d}", v) == Raises(ValueError)
  {
    var m := Markup("host", None, "d");
    ScanHostSpecD();
    assert LineErrors("{host:d}") == FieldErrors([Item("", Some(m))], "{host:d}");
    HostField(m, v);
    SpecTypeD();
    FormatOneField(m, v, TopDepth);
  }

  lemma {:induction false} SpecTypeD()
    ensures !NeedsExpanding("d") && ParseTextSpec("d") == Raises(ValueError)
  {
    assert !IsAlign("d"[0]) && !IsDigit("d"[0]);
    assert DigitsEnd("d", 0) == 0;
  }

  lemma {:induction false} ScanHostSpecD()
    ensures Scan("{host:d}") == Parsed([Item("", Some(Markup("host", None, "d")))], None)
  {
    var s := "{host:d}";
    var t := s[1..];
    assert t[4] == ':' && t[6] == '}';
    assert forall j :: 0 <= j < 4 ==> NameChar(t[j]);
    NameScanPlainStop(t);
    assert t[..4] == "host" && t[5..6] == "d" && t[7..] == [];
    assert SpecEnd(t, 6, 1) == Some(6);
    assert SpecEnd(t, 5, 1) == Some(6);
    assert ParseField(t) == Next(Markup("host", None, "d"), []);
    ScanOneField(s, Markup("host", None, "d"));
  }

  lemma {:induction false} ScanHostBangX()
    ensures Scan("{host!x}") == Parsed([Item("", Some(Markup("host", Some('x'), "")))], None)
  {
    var s := "{host!x}";
    var t := s[1..];
    assert t[4] == '!' && t[6] == '}';
    assert forall j :: 0 <= j < 4 ==> NameChar(t[j]);
    NameScanPlainStop(t);
    assert t[..4] == "host" && t[7..] == [];
    assert ParseField(t) == Next(Markup("host", Some('x'), ""), []);
    ScanOneField(s, Markup("host", Some('x'), ""));
  }

  lemma {:induction false} NameScanPlainStop(t: string)
    requires |t| == 7 && (t[4] == '!' || t[4] == ':') && forall j :: 0 <= j < 4 ==> NameChar(t[j])
    ensures NameScan(t, 0) == Stop(4)
  {
    assert NameScan(t, 4) == Stop(4);
    assert NameScan(t, 3) == NameScan(t, 4);
    assert NameScan(t, 2) == NameScan(t, 3);
    assert NameScan(t, 1) == NameScan(t, 2);
  }

  lemma {:induction false} HostField(m: Markup, v: Values)
    requires m.name == "host"
    ensures FieldHead(m.name) == "host" && Argument("host", v) == Some(v.host)
    ensures m.conversion == Some('x') ==> RenderField(m, v, TopDepth) == Raises(ValueError)
  {
    HostHead();
    if m.conversion == Some('x') {
      assert FieldValue(m, v) == Raises(ValueError);
    }
  }

  lemma {:induction false} HostHead()
    ensures FieldHead("host") == "host" && !AllDigits("host")
  {
    assert forall j :: 0 <= j < 4 ==> NameChar("host"[j]);
    FieldHeadPlain("host");
    assert !IsDigit("host"[0]);
  }

  /** A conversion `str.format` accepts. */
  predicate KnownConversion(c: Option<char>) {
    c.None? || c == Some('s') || c == Some('r') || c == Some('a')
  }

  /** A field `str.format` can apply to a text: an accepted conversion, and a format spec
      without nested fields that is valid for a text. */
  predicate Applicable(m: Markup) {
    KnownConversion(m.conversion) && !NeedsExpanding(m.spec) && ParseTextSpec(m.spec).Ok?
  }

  /** Every field of a line can be applied to a text. */
  predicate ApplicableFields(line: string) {
    forall i :: 0 <= i < |Scan(line).items| && Scan(line).items[i].field.Some? ==>
      Applicable(Scan(line).items[i].field.value)
  }

  /** An allowed field renders, except `container`, which raises `KeyError`. */
  lemma {:induction false} AllowedFieldRenders(m: Markup, v: Values)
    requires m.name in AllowedPlaceholders && Applicable(m)
    ensures RenderField(m, v, TopDepth).Ok? || RenderField(m, v, TopDepth) == Raises(KeyError)
  {
    assert forall j :: 0 <= j < |m.name| ==> NameChar(m.name[j]) by {
      assert forall j :: 0 <= j < 4 ==> NameChar("host"[j]);
      assert forall j :: 0 <= j < 7 ==> NameChar("service"[j]) && NameChar("monitor"[j]);
      assert forall j :: 0 <= j < 9 ==> NameChar("container"[j]);
    }
    FieldHeadPlain(m.name);
    assert !IsDigit(m.name[0]);
  }

  /** Formatting items whose fields all render or raise `KeyError` either succeeds or
      raises `KeyError`. */
  lemma {:induction false} FormatAllowed(items: seq<Item>, v: Values)
    requires forall i :: 0 <= i < |items| && items[i].field.Some? ==>
      RenderField(items[i].field.value, v, TopDepth).Ok? || RenderField(items[i].field.value, v, TopDepth) == Raises(KeyError)
    ensures Format(items, None, v, TopDepth).Ok? || Format(items, None, v, TopDepth) == Raises(KeyError)
  {
    if items != [] {
      assert forall i :: 0 <= i < |items[1..]| ==> items[1..][i] == items[i + 1];
      FormatAllowed(items[1..], v);
    }
  }

  /** A runbook line the validator accepts, whose fields have accepted conversions and
      format specs, never makes `_render_runbook` raise. */
  lemma {:induction false} ValidLineRenders(line: string, v: Values)
    requires LineErrors(line) == [] && ApplicableFields(line)
    ensures RenderStep(line, v).Ok?
  {
    var p := Scan(line);
    LineErrorsSpec(line);
    forall i | 0 <= i < |p.items| && p.items[i].field.Some?
      ensures RenderField(p.items[i].field.value, v, TopDepth).Ok? || RenderField(p.items[i].field.value, v, TopDepth) == Raises(KeyError)
    {
      assert !Unknown(p.items[i]);
      AllowedFieldRenders(p.items[i].field.value, v);
    }
    FormatAllowed(p.items, v);
  }

  // ----- references -----

  /** A reference check: a truthy reference must be a key of the table. Membership hashes
      the reference, so a list or mapping raises `TypeError`. */
  function RefErrors(table: Dict, reference: Json, message: string): (r: Py<seq<string>>)
    ensures r.Raises? <==> Truthy(reference) && !Hashable(reference)
    ensures r.Raises? ==> r.error == TypeError
    ensures r.Ok? ==> (r.value != [] <==> Truthy(reference) && !(reference.JStr? && HasKey(table, reference.s)))
    ensures r.Ok? && r.value != [] ==> r.value == [message + Str(reference)]
  {
    if !Truthy(reference) then Ok([])
    else
      var found :- KeyIn(table, reference);
      if found then Ok([]) else Ok([message + Str(reference)])
  }

  const MissingDefaultGroup := "default_group not found in groups: "
  const MissingDefaultTopic := "default_topic not found in topics: "
  const MissingRouteGroup := "route group not found in groups: "
  const MissingRouteTopic := "route topic not found in topics: "

  function GroupsOf(config: Dict): Json {
    GetOr(config, "groups", JObj([]))
  }

  function TopicsOf(config: Dict): Json {
    GetOr(config, "topics", JObj([]))
  }

  /** The checks of `default_group` and `default_topic`, each made only when its table is
      a mapping. */
  function DefaultRefErrors(config: Dict): (r: Py<seq<string>>)
    ensures r.Raises? ==> r.error == TypeError
  {
    var groupErrors :- if GroupsOf(config).JObj? then RefErrors(GroupsOf(config).entries, At(config, "default_group"), MissingDefaultGroup) else Ok([]);
    var topicErrors :- if TopicsOf(config).JObj? then RefErrors(TopicsOf(config).entries, At(config, "default_topic"), MissingDefaultTopic) else Ok([]);
    Ok(groupErrors + topicErrors)
  }

  /** The group and topic checks of one route; a route that is not a mapping is skipped. */
  function RouteRefs(groups: Dict, topics: Dict, route: Json): (r: Py<seq<string>>)
    ensures r.Raises? ==> r.error == TypeError
  {
    if !route.JObj? then Ok([])
    else
      var groupErrors :- RefErrors(groups, At(route.entries, "group"), MissingRouteGroup);
      var topicErrors :- RefErrors(topics, At(route.entries, "topic"), MissingRouteTopic);
      Ok(groupErrors + topicErrors)
  }

  /** The route loop: every route checked in order; the first check that raises ends it. */
  function RoutesRefs(groups: Dict, topics: Dict, routes: seq<Json>): (r: Py<seq<string>>)
    ensures r.Raises? ==> r.error == TypeError
    ensures r.Ok? <==> forall k :: 0 <= k < |routes| ==> RouteRefs(groups, topics, routes[k]).Ok?
  {
    if routes == [] then Ok([])
    else
      var init := routes[..|routes| - 1];
      assert forall k :: 0 <= k < |init| ==> init[k] == routes[k];
      var head :- RoutesRefs(groups, topics, init);
      var last :- RouteRefs(groups, topics, routes[|routes| - 1]);
      Ok(head + last)
  }

  /** The messages of every route are among the messages of the loop. */
  lemma {:induction false} RoutesRefsHas(groups: Dict, topics: Dict, routes: seq<Json>, k: nat)
    requires RoutesRefs(groups, topics, routes).Ok? && k < |routes|
    ensures RouteRefs(groups, topics, routes[k]).Ok?
    ensures Within(RouteRefs(groups, topics, routes[k]).value, RoutesRefs(groups, topics, routes).value)
  {
    var init := routes[..|routes| - 1];
    RoutesRefsSnoc(groups, topics, routes);
    if k < |init| {
      RoutesRefsHas(groups, topics, init, k);
      RoutesRefsHasInit(groups, topics, routes, k);
    } else {
      WithinRight(RoutesRefs(groups, topics, init).value, RouteRefs(groups, topics, routes[k]).value);
    }
  }

  lemma {:induction false} RoutesRefsSnoc(groups: Dict, topics: Dict, routes: seq<Json>)
    requires RoutesRefs(groups, topics, routes).Ok? && routes != []
    ensures RoutesRefs(groups, topics, routes[..|routes| - 1]).Ok? && RouteRefs(groups, topics, routes[|routes| - 1]).Ok?
    ensures RoutesRefs(groups, topics, routes).value
      == RoutesRefs(groups, topics, routes[..|routes| - 1]).value + RouteRefs(groups, topics, routes[|routes| - 1]).value
  {
  }

  lemma {:induction false} RoutesRefsHasInit(groups: Dict, topics: Dict, routes: seq<Json>, k: nat)
    requires k < |routes| - 1
    requires RoutesRefs(groups, topics, routes).Ok? && RoutesRefs(groups, topics, routes[..|routes| - 1]).Ok?
    requires RouteRefs(groups, topics, routes[|routes| - 1]).Ok? && RouteRefs(groups, topics, routes[..|routes| - 1][k]).Ok?
    requires RoutesRefs(groups, topics, routes).value
      == RoutesRefs(groups, topics, routes[..|routes| - 1]).value + RouteRefs(groups, topics, routes[|routes| - 1]).value
    requires Within(RouteRefs(groups, topics, routes[..|routes| - 1][k]).value, RoutesRefs(groups, topics, routes[..|routes| - 1]).value)
    ensures RouteRefs(groups, topics, routes[k]).Ok?
    ensures Within(RouteRefs(groups, topics, routes[k]).value, RoutesRefs(groups, topics, routes).value)
  {
    assert routes[..|routes| - 1][k] == routes[k];
    WithinLeft(RouteRefs(groups, topics, routes[k]).value, RoutesRefs(groups, topics, routes[..|routes| - 1]).value,
      RouteRefs(groups, topics, routes[|routes| - 1]).value);
  }

  /** The route checks, made only when both `groups` and `topics` are mappings;
      `config.get("routes", []) or []` must be iterable. */
  function RouteRefErrors(config: Dict): (r: Py<seq<string>>)
    ensures r.Raises? ==> r.error == TypeError
    ensures !(GroupsOf(config).JObj? && TopicsOf(config).JObj?) ==> r == Ok([])
  {
    if !(GroupsOf(config).JObj? && TopicsOf(config).JObj?) then Ok([])
    else
      var routes :- IterateOrEmpty(GetOr(config, "routes", JList([])));
      RoutesRefs(GroupsOf(config).entries, TopicsOf(config).entries, routes)
  }

  function MissingProfile(service: string, profile: Json): string {
    "service '" + service + "' references missing profile '" + Str(profile) + "'"
  }

  /** The profile names one service lists, each checked against `profiles`. */
  function MissingProfiles(profiles: Dict, service: string, listed: seq<Json>): (r: Py<seq<string>>)
    ensures r.Raises? ==> r.error == TypeError
  {
    if listed == [] then Ok([])
    else
      var head :- MissingProfiles(profiles, service, listed[..|listed| - 1]);
      var found :- KeyIn(profiles, listed[|listed| - 1]);
      Ok(if found then head else head + [MissingProfile(service, listed[|listed| - 1])])
  }

  /** A dangling profile name. */
  predicate Dangling(profiles: Dict, profile: Json) {
    !(profile.JStr? && HasKey(profiles, profile.s))
  }

  /** The profile check of a service raises exactly on an unhashable name, and otherwise
      reports exactly its dangling names. */
  lemma {:induction false} MissingProfilesSpec(profiles: Dict, service: string, listed: seq<Json>)
    ensures MissingProfiles(profiles, service, listed).Raises? <==> exists k :: 0 <= k < |listed| && !Hashable(listed[k])
    ensures MissingProfiles(profiles, service, listed).Ok? ==> forall e :: e in MissingProfiles(profiles, service, listed).value <==>
      exists k :: 0 <= k < |listed| && Dangling(profiles, listed[k]) && e == MissingProfile(service, listed[k])
  {
    if listed != [] {
      var init := listed[..|listed| - 1];
      var last := listed[|listed| - 1];
      assert forall k :: 0 <= k < |init| ==> init[k] == listed[k];
      assert listed == init + [last];
      MissingProfilesSpec(profiles, service, init);
    }
  }

  /** The profile check of one service; a service that is not a mapping is skipped, and
      `service.get("profiles", []) or []` must be iterable. */
  function ServiceRefs(profiles: Dict, entry: (string, Json)): (r: Py<seq<string>>)
    ensures r.Raises? ==> r.error == TypeError
  {
    if !entry.1.JObj? then Ok([])
    else
      var listed :- IterateOrEmpty(GetOr(entry.1.entries, "profiles", JList([])));
      MissingProfiles(profiles, entry.0, listed)
  }

  /** The service loop of `_validate_references`. */
  function ServicesRefs(profiles: Dict, services: Dict): (r: Py<seq<string>>)
    ensures r.Raises? ==> r.error == TypeError
    ensures r.Ok? <==> forall k :: 0 <= k < |services| ==> ServiceRefs(profiles, services[k]).Ok?
  {
    if services == [] then Ok([])
    else
      var init := services[..|services| - 1];
      assert forall k :: 0 <= k < |init| ==> init[k] == services[k];
      var head :- ServicesRefs(profiles, init);
      var last :- ServiceRefs(profiles, services[|services| - 1]);
      Ok(head + last)
  }

  /** The messages of every service are among the messages of the loop. */
  lemma {:induction false} ServicesRefsHas(profiles: Dict, services: Dict, k: nat)
    requires ServicesRefs(profiles, services).Ok? && k < |services|
    ensures ServiceRefs(profiles, services[k]).Ok?
    ensures Within(ServiceRefs(profiles, services[k]).value, ServicesRefs(profiles, services).value)
  {
    var init := services[..|services| - 1];
    ServicesRefsSnoc(profiles, services);
    if k < |init| {
      ServicesRefsHas(profiles, init, k);
      ServicesRefsHasInit(profiles, services, k);
    } else {
      WithinRight(ServicesRefs(profiles, init).value, ServiceRefs(profiles, services[k]).value);
    }
  }

  lemma {:induction false} ServicesRefsSnoc(profiles: Dict, services: Dict)
    requires ServicesRefs(profiles, services).Ok? && services != []
    ensures ServicesRefs(profiles, services[..|services| - 1]).Ok? && ServiceRefs(profiles, services[|services| - 1]).Ok?
    ensures ServicesRefs(profiles, services).value
      == ServicesRefs(profiles, services[..|services| - 1]).value + ServiceRefs(profiles, services[|services| - 1]).value
  {
  }

  lemma {:induction false} ServicesRefsHasInit(profiles: Dict, services: Dict, k: nat)
    requires k < |services| - 1
    requires ServicesRefs(profiles, services).Ok? && ServicesRefs(profiles, services[..|services| - 1]).Ok?
    requires ServiceRefs(profiles, services[|services| - 1]).Ok? && ServiceRefs(profiles, services[..|services| - 1][k]).Ok?
    requires ServicesRefs(profiles, services).value
      == ServicesRefs(profiles, services[..|services| - 1]).value + ServiceRefs(profiles, services[|services| - 1]).value
    requires Within(ServiceRefs(profiles, services[..|services| - 1][k]).value, ServicesRefs(profiles, services[..|services| - 1]).value)
    ensures ServiceRefs(profiles, services[k]).Ok?
    ensures Within(ServiceRefs(profiles, services[k]).value, ServicesRefs(profiles, services).value)
  {
    assert services[..|services| - 1][k] == services[k];
    WithinLeft(ServiceRefs(profiles, services[k]).value, ServicesRefs(profiles, services[..|services| - 1]).value,
      ServiceRefs(profiles, services[|services| - 1]).value);
  }

  function ProfilesOf(config: Dict): Json {
    GetOr(config, "profiles", JObj([]))
  }

  function ServicesOf(config: Dict): Json {
    GetOr(config, "services", JObj([]))
  }

  /** The service checks, made only when both `profiles` and `services` are mappings. */
  function ServiceRefErrors(config: Dict): (r: Py<seq<string>>)
    ensures r.Raises? ==> r.error == TypeError
    ensures !(ProfilesOf(config).JObj? && ServicesOf(config).JObj?) ==> r == Ok([])
  {
    if ProfilesOf(config).JObj? && ServicesOf(config).JObj? then ServicesRefs(ProfilesOf(config).entries, ServicesOf(config).entries)
    else Ok([])
  }

  /** `_validate_references(config)`: defaults, then routes, then services. */
  function ValidateReferences(config: Dict): (r: Py<seq<string>>)
    ensures r.Raises? ==> r.error == TypeError
  {
    var defaults :- DefaultRefErrors(config);
    var routes :- RouteRefErrors(config);
    var services :- ServiceRefErrors(config);
    Ok(defaults + routes + services)
  }

  /** A dangling default group is reported exactly when `groups` is a mapping. */
  lemma {:induction false} DefaultGroupReported(config: Dict)
    requires GroupsOf(config).JObj? && Hashable(At(config, "default_group"))
    ensures var r := DefaultRefErrors(config);
      var g := At(config, "default_group");
      r.Ok? ==> ((MissingDefaultGroup + Str(g) in r.value) <==> Truthy(g) && !(g.JStr? && HasKey(GroupsOf(config).entries, g.s)))
  {
    var g := At(config, "default_group");
    var groupErrors := RefErrors(GroupsOf(config).entries, g, MissingDefaultGroup);
    if TopicsOf(config).JObj? && DefaultRefErrors(config).Ok? {
      var t := At(config, "default_topic");
      var topicErrors := RefErrors(TopicsOf(config).entries, t, MissingDefaultTopic);
      assert topicErrors.value != [] ==> topicErrors.value == [MissingDefaultTopic + Str(t)];
      DistinctMessages(MissingDefaultGroup, MissingDefaultTopic, Str(g), Str(t));
    }
  }

  /** Messages with different fixed beginnings of the same length differ. */
  lemma {:induction false} DistinctMessages(a: string, b: string, x: string, y: string)
    requires |a| == |b| && a != b
    ensures a + x != b + y
  {
    assert (a + x)[..|a|] == a;
    assert (b + y)[..|b|] == b;
  }

  /** Each dangling group or topic of a route is reported, once all groups and topics are
      mappings and the checks do not raise. */
  lemma {:induction false} RouteDanglingReported(config: Dict, routes: seq<Json>, k: nat)
    requires GroupsOf(config).JObj? && TopicsOf(config).JObj?
    requires IterateOrEmpty(GetOr(config, "routes", JList([]))) == Ok(routes)
    requires k < |routes| && routes[k].JObj?
    requires ValidateReferences(config).Ok?
    ensures var g := At(routes[k].entries, "group");
      Truthy(g) && !(g.JStr? && HasKey(GroupsOf(config).entries, g.s)) ==> MissingRouteGroup + Str(g) in ValidateReferences(config).value
    ensures var t := At(routes[k].entries, "topic");
      Truthy(t) && !(t.JStr? && HasKey(TopicsOf(config).entries, t.s)) ==> MissingRouteTopic + Str(t) in ValidateReferences(config).value
  {
    var groups, topics := GroupsOf(config).entries, TopicsOf(config).entries;
    ValidateReferencesParts(config);
    var all := RoutesRefs(groups, topics, routes);
    assert RouteRefErrors(config) == all;
    RoutesRefsHas(groups, topics, routes, k);
    RouteRefsReported(groups, topics, routes[k]);
  }

  lemma {:induction false} RouteRefsReported(groups: Dict, topics: Dict, route: Json)
    requires route.JObj? && RouteRefs(groups, topics, route).Ok?
    ensures var g := At(route.entries, "group");
      Truthy(g) && !(g.JStr? && HasKey(groups, g.s)) ==> MissingRouteGroup + Str(g) in RouteRefs(groups, topics, route).value
    ensures var t := At(route.entries, "topic");
      Truthy(t) && !(t.JStr? && HasKey(topics, t.s)) ==> MissingRouteTopic + Str(t) in RouteRefs(groups, topics, route).value
  {
    var g, t := At(route.entries, "group"), At(route.entries, "topic");
    var groupErrors := RefErrors(groups, g, MissingRouteGroup);
    var topicErrors := RefErrors(topics, t, MissingRouteTopic);
    assert RouteRefs(groups, topics, route).value == groupErrors.value + topicErrors.value;
  }

  /** A successful reference check is the three parts in order. */
  lemma {:induction false} ValidateReferencesParts(config: Dict)
    requires ValidateReferences(config).Ok?
    ensures DefaultRefErrors(config).Ok? && RouteRefErrors(config).Ok? && ServiceRefErrors(config).Ok?
    ensures ValidateReferences(config).value
         == DefaultRefErrors(config).value + RouteRefErrors(config).value + ServiceRefErrors(config).value
  {
  }

  /** The messages of a service are exactly its listed profiles that are not defined. */
  lemma {:induction false} ServiceMissingReported(config: Dict, k: nat, profile: Json)
    requires ProfilesOf(config).JObj? && ServicesOf(config).JObj?
    requires k < |ServicesOf(config).entries| && ServicesOf(config).entries[k].1.JObj?
    requires var listed := IterateOrEmpty(GetOr(ServicesOf(config).entries[k].1.entries, "profiles", JList([])));
      listed.Ok? && profile in listed.value
    requires ValidateReferences(config).Ok?
    requires !(profile.JStr? && HasKey(ProfilesOf(config).entries, profile.s))
    ensures MissingProfile(ServicesOf(config).entries[k].0, profile) in ValidateReferences(config).value
  {
    var profiles, services := ProfilesOf(config).entries, ServicesOf(config).entries;
    ValidateReferencesParts(config);
    assert ServiceRefErrors(config) == ServicesRefs(profiles, services);
    var listed := IterateOrEmpty(GetOr(services[k].1.entries, "profiles", JList([]))).value;
    var j :| 0 <= j < |listed| && listed[j] == profile;
    ServicesRefsHas(profiles, services, k);
    MissingProfilesSpec(profiles, services[k].0, listed);
    assert Dangling(profiles, listed[j]);
  }

  /** The loop over routes. */
  method RoutesRefsLoop(groups: Dict, topics: Dict, routes: seq<Json>) returns (r: Py<seq<string>>)
    ensures r == RoutesRefs(groups, topics, routes)
  {
    var errors: seq<string> := [];
    var i := 0;
    while i < |routes|
      invariant 0 <= i <= |routes|
      invariant RoutesRefs(groups, topics, routes[..i]) == Ok(errors)
    {
      assert routes[..i + 1][..i] == routes[..i];
      var step := RouteRefs(groups, topics, routes[i]);
      if step.Raises? {
        return step;
      }
      errors := errors + step.value;
      i := i + 1;
    }
    assert routes[..i] == routes;
    return Ok(errors);
  }

  /** The loop over the profiles a service lists. */
  method MissingProfilesLoop(profiles: Dict, service: string, listed: seq<Json>) returns (r: Py<seq<string>>)
    ensures r == MissingProfiles(profiles, service, listed)
  {
    var errors: seq<string> := [];
    var i := 0;
    while i < |listed|
      invariant 0 <= i <= |listed|
      invariant MissingProfiles(profiles, service, listed[..i]) == Ok(errors)
    {
      assert listed[..i + 1][..i] == listed[..i];
      var found := KeyIn(profiles, listed[i]);
      if found.Raises? {
        MissingProfilesSpec(profiles, service, listed);
        return Raises(TypeError);
      }
      if !found.value {
        errors := errors + [MissingProfile(service, listed[i])];
      }
      i := i + 1;
    }
    assert listed[..i] == listed;
    return Ok(errors);
  }

  /** The loop over services, with the inner loop over each service's profiles. */
  method ServicesRefsLoop(profiles: Dict, services: Dict) returns (r: Py<seq<string>>)
    ensures r == ServicesRefs(profiles, services)
  {
    var errors: seq<string> := [];
    var i := 0;
    while i < |services|
      invariant 0 <= i <= |services|
      invariant ServicesRefs(profiles, services[..i]) == Ok(errors)
    {
      assert services[..i + 1][..i] == services[..i];
      var step: Py<seq<string>> := Ok([]);
      if services[i].1.JObj? {
        var listed := IterateOrEmpty(GetOr(services[i].1.entries, "profiles", JList([])));
        if listed.Raises? {
          step := Raises(listed.error);
        } else {
          step := MissingProfilesLoop(profiles, services[i].0, listed.value);
        }
      }
      assert step == ServiceRefs(profiles, services[i]);
      if step.Raises? {
        return step;
      }
      errors := errors + step.value;
      i := i + 1;
    }
    assert services[..i] == services;
    return Ok(errors);
  }

  /** `_validate_references(config)`, its parts in order. */
  method ValidateReferencesSteps(config: Dict) returns (r: Py<seq<string>>)
    ensures r == ValidateReferences(config)
  {
    var defaults := DefaultRefErrors(config);
    if defaults.Raises? {
      return Raises(defaults.error);
    }
    var routePart: seq<string> := [];
    if GroupsOf(config).JObj? && TopicsOf(config).JObj? {
      var routes := IterateOrEmpty(GetOr(config, "routes", JList([])));
      if routes.Raises? {
        return Raises(routes.error);
      }
      var routeErrors := RoutesRefsLoop(GroupsOf(config).entries, TopicsOf(config).entries, routes.value);
      if routeErrors.Raises? {
        return Raises(routeErrors.error);
      }
      routePart := routeErrors.value;
    }
    assert RouteRefErrors(config) == Ok(routePart);
    var servicePart: seq<string> := [];
    if ProfilesOf(config).JObj? && ServicesOf(config).JObj? {
      var serviceErrors := ServicesRefsLoop(ProfilesOf(config).entries, ServicesOf(config).entries);
      if serviceErrors.Raises? {
        return Raises(serviceErrors.error);
      }
      servicePart := serviceErrors.value;
    }
    assert ServiceRefErrors(config) == Ok(servicePart);
    return Ok(defaults.value + routePart + servicePart);
  }

  // ----- list operators -----

  const ListOps: set<string> := {"contains_any", "in", "prefix_in"}

  function ListValueRequired(op: string, rule: Json): string {
    "Rule op '" + op + "' requires list value: " + Repr(rule)
  }

  /** The nested `match` mapping of a rule (or `{}`) and its operator and value, read
      only when it is a mapping. */
  function MatchPart(rule: Dict): Json {
    GetOr(rule, "match", JObj([]))
  }

  /** A rule's list-operator check: a list operator needs a list value. `op in LIST_OPS`
      hashes the operator, so a list or mapping operator raises `TypeError`. */
  function RuleListOpErrors(rule: Json): (r: Py<seq<string>>)
    ensures r.Raises? ==> r.error == TypeError
    ensures !rule.JObj? || !MatchPart(rule.entries).JObj? ==> r == Ok([])
    ensures r.Ok? && rule.JObj? && MatchPart(rule.entries).JObj? ==> (r.value != [] <==>
      var m := MatchPart(rule.entries); var op := At(m.entries, "op");
      op.JStr? && op.s in ListOps && !At(m.entries, "value").JList?)
    ensures r.Ok? && r.value != [] ==> |r.value| == 1
  {
    if !rule.JObj? then Ok([])
    else
      var m := MatchPart(rule.entries);
      var op := if m.JObj? then At(m.entries, "op") else JNull;
      var value := if m.JObj? then At(m.entries, "value") else JNull;
      if !Hashable(op) then Raises(TypeError)
      else if op.JStr? && op.s in ListOps && !value.JList? then Ok([ListValueRequired(op.s, m)])
      else Ok([])
  }

  /** The loop over one list of rules. */
  function RulesListOpErrors(rules: seq<Json>): (r: Py<seq<string>>)
    ensures r.Raises? ==> r.error == TypeError
    ensures r.Ok? <==> forall k :: 0 <= k < |rules| ==> RuleListOpErrors(rules[k]).Ok?
    ensures r.Ok? ==> |r.value| <= |rules|
  {
    if rules == [] then Ok([])
    else
      var init := rules[..|rules| - 1];
      assert forall k :: 0 <= k < |init| ==> init[k] == rules[k];
      var head :- RulesListOpErrors(init);
      var last :- RuleListOpErrors(rules[|rules| - 1]);
      Ok(head + last)
  }

  /** The message of every rule is among the messages of the loop. */
  lemma {:induction false} RulesListOpHas(rules: seq<Json>, k: nat)
    requires RulesListOpErrors(rules).Ok? && k < |rules|
    ensures RuleListOpErrors(rules[k]).Ok?
    ensures Within(RuleListOpErrors(rules[k]).value, RulesListOpErrors(rules).value)
  {
    RulesListOpSnoc(rules);
    if k < |rules| - 1 {
      RulesListOpHas(rules[..|rules| - 1], k);
      RulesListOpHasInit(rules, k);
    } else {
      WithinRight(RulesListOpErrors(rules[..|rules| - 1]).value, RuleListOpErrors(rules[k]).value);
    }
  }

  lemma {:induction false} RulesListOpHasInit(rules: seq<Json>, k: nat)
    requires k < |rules| - 1
    requires RulesListOpErrors(rules).Ok? && RulesListOpErrors(rules[..|rules| - 1]).Ok?
    requires RuleListOpErrors(rules[|rules| - 1]).Ok? && RuleListOpErrors(rules[..|rules| - 1][k]).Ok?
    requires RulesListOpErrors(rules).value
      == RulesListOpErrors(rules[..|rules| - 1]).value + RuleListOpErrors(rules[|rules| - 1]).value
    requires Within(RuleListOpErrors(rules[..|rules| - 1][k]).value, RulesListOpErrors(rules[..|rules| - 1]).value)
    ensures RuleListOpErrors(rules[k]).Ok?
    ensures Within(RuleListOpErrors(rules[k]).value, RulesListOpErrors(rules).value)
  {
    assert rules[..|rules| - 1][k] == rules[k];
    WithinLeft(RuleListOpErrors(rules[k]).value, RulesListOpErrors(rules[..|rules| - 1]).value, RuleListOpErrors(rules[|rules| - 1]).value);
  }

  lemma {:induction false} RulesListOpSnoc(rules: seq<Json>)
    requires RulesListOpErrors(rules).Ok? && rules != []
    ensures RulesListOpErrors(rules[..|rules| - 1]).Ok? && RuleListOpErrors(rules[|rules| - 1]).Ok?
    ensures RulesListOpErrors(rules).value
      == RulesListOpErrors(rules[..|rules| - 1]).value + RuleListOpErrors(rules[|rules| - 1]).value
  {
  }

  /** The `p1` rules of one profile; a profile that is not a mapping is skipped. */
  function ProfileListOpErrors(profile: Json): (r: Py<seq<string>>)
    ensures r.Raises? ==> r.error == TypeError
  {
    if !profile.JObj? then Ok([])
    else
      var rules :- IterateOrEmpty(GetOr(profile.entries, "p1", JList([])));
      RulesListOpErrors(rules)
  }

  /** The loop over the profiles. */
  function ProfilesListOpErrors(profiles: Dict): (r: Py<seq<string>>)
    ensures r.Raises? ==> r.error == TypeError
    ensures r.Ok? <==> forall k :: 0 <= k < |profiles| ==> ProfileListOpErrors(profiles[k].1).Ok?
  {
    if profiles == [] then Ok([])
    else
      var init := profiles[..|profiles| - 1];
      assert forall k :: 0 <= k < |init| ==> init[k] == profiles[k];
      var head :- ProfilesListOpErrors(init);
      var last :- ProfileListOpErrors(profiles[|profiles| - 1].1);
      Ok(head + last)
  }

  /** `_validate_list_ops(config)`: the drop rules, then the profiles' `p1` rules. */
  function ValidateListOps(config: Dict): (r: Py<seq<string>>)
    ensures r.Raises? ==> r.error == TypeError
  {
    var drop :- IterateOrEmpty(GetOr(config, "drop", JList([])));
    var dropErrors :- RulesListOpErrors(drop);
    var profileErrors :- if ProfilesOf(config).JObj? then ProfilesListOpErrors(ProfilesOf(config).entries) else Ok([]);
    Ok(dropErrors + profileErrors)
  }

  /** The loop over one list of rules. */
  method RulesListOpLoop(rules: seq<Json>) returns (r: Py<seq<string>>)
    ensures r == RulesListOpErrors(rules)
  {
    var errors: seq<string> := [];
    var i := 0;
    while i < |rules|
      invariant 0 <= i <= |rules|
      invariant RulesListOpErrors(rules[..i]) == Ok(errors)
    {
      assert rules[..i + 1][..i] == rules[..i];
      var step := RuleListOpErrors(rules[i]);
      if step.Raises? {
        return step;
      }
      errors := errors + step.value;
      i := i + 1;
    }
    assert rules[..i] == rules;
    return Ok(errors);
  }

  /** The loop over the profiles and their `p1` rules. */
  method ProfilesListOpLoop(profiles: Dict) returns (r: Py<seq<string>>)
    ensures r == ProfilesListOpErrors(profiles)
  {
    var errors: seq<string> := [];
    var i := 0;
    while i < |profiles|
      invariant 0 <= i <= |profiles|
      invariant ProfilesListOpErrors(profiles[..i]) == Ok(errors)
    {
      assert profiles[..i + 1][..i] == profiles[..i];
      var step: Py<seq<string>> := Ok([]);
      if profiles[i].1.JObj? {
        var rules := IterateOrEmpty(GetOr(profiles[i].1.entries, "p1", JList([])));
        if rules.Raises? {
          step := Raises(rules.error);
        } else {
          step := RulesListOpLoop(rules.value);
        }
      }
      assert step == ProfileListOpErrors(profiles[i].1);
      if step.Raises? {
        assert profiles[..i + 1][i] == profiles[i];
        return Raises(TypeError);
      }
      errors := errors + step.value;
      i := i + 1;
    }
    assert profiles[..i] == profiles;
    return Ok(errors);
  }

  /** `_validate_list_ops(config)`: the drop rules, then the profiles. */
  method ValidateListOpsLoop(config: Dict) returns (r: Py<seq<string>>)
    ensures r == ValidateListOps(config)
  {
    var drop := IterateOrEmpty(GetOr(config, "drop", JList([])));
    if drop.Raises? {
      return Raises(drop.error);
    }
    var dropErrors := RulesListOpLoop(drop.value);
    if dropErrors.Raises? {
      return dropErrors;
    }
    var profilePart: seq<string> := [];
    if ProfilesOf(config).JObj? {
      var profileErrors := ProfilesListOpLoop(ProfilesOf(config).entries);
      if profileErrors.Raises? {
        return profileErrors;
      }
      profilePart := profileErrors.value;
    }
    return Ok(dropErrors.value + profilePart);
  }

  /** A drop rule with a list operator and a single value is reported once. */
  lemma {:induction false} DropRuleReported(config: Dict, rules: seq<Json>, k: nat)
    requires IterateOrEmpty(GetOr(config, "drop", JList([]))) == Ok(rules)
    requires k < |rules| && rules[k].JObj? && MatchPart(rules[k].entries).JObj?
    requires var m := MatchPart(rules[k].entries).entries;
      At(m, "op").JStr? && At(m, "op").s in ListOps && !At(m, "value").JList?
    requires ValidateListOps(config).Ok?
    ensures ListValueRequired(At(MatchPart(rules[k].entries).entries, "op").s, MatchPart(rules[k].entries)) in ValidateListOps(config).value
  {
    assert RulesListOpErrors(rules).Ok?;
    RulesListOpHas(rules, k);
  }

  // ----- the combined verdict -----

  /** What `validate_routes_config` decides: nothing, or the `ValueError` it raises. */
  datatype Verdict = Valid | Invalid(message: string)

  const SchemaHeader := "Invalid routes.yml schema:\n"
  const ConfigHeader := "Invalid routes.yml config:\n"

  /** The messages of the three cross-checks, in order. */
  function ExtraErrors(config: Dict): (r: Py<seq<string>>)
    ensures r.Raises? ==> r.error == TypeError
    ensures r.Ok? ==> ValidatePlaceholders(config) <= r.value
  {
    var references :- ValidateReferences(config);
    var listOps :- ValidateListOps(config);
    Ok(ValidatePlaceholders(config) + references + listOps)
  }

  /** `validate_routes_config(config, schema)`. `schemaErrors` are the formatted messages
      the schema validator reports, sorted by path. */
  function ValidateRoutesConfig(config: Dict, schemaErrors: seq<string>): (r: Py<Verdict>)
    ensures schemaErrors != [] ==> r == Ok(Invalid(SchemaHeader + Join("\n", schemaErrors)))
    ensures schemaErrors == [] ==> (r == Ok(Valid) <==> ExtraErrors(config) == Ok([]))
    ensures schemaErrors == [] ==> (r.Raises? <==> ExtraErrors(config).Raises?)
    ensures schemaErrors == [] && ExtraErrors(config).Ok? && ExtraErrors(config).value != [] ==>
      r == Ok(Invalid(ConfigHeader + Join("\n", ExtraErrors(config).value)))
  {
    if schemaErrors != [] then Ok(Invalid(SchemaHeader + Join("\n", schemaErrors)))
    else
      var extra :- ExtraErrors(config);
      if extra != [] then Ok(Invalid(ConfigHeader + Join("\n", extra))) else Ok(Valid)
  }

  /** `validate_routes_config`: the schema first, then the three checks extending
      `extra_errors` one after the other. */
  method ValidateRoutesConfigSteps(config: Dict, schemaErrors: seq<string>) returns (r: Py<Verdict>)
    ensures r == ValidateRoutesConfig(config, schemaErrors)
  {
    if schemaErrors != [] {
      return Ok(Invalid(SchemaHeader + Join("\n", schemaErrors)));
    }
    var extra := ValidatePlaceholdersLoop(config);
    var references := ValidateReferencesSteps(config);
    if references.Raises? {
      return Raises(references.error);
    }
    extra := extra + references.value;
    var listOps := ValidateListOpsLoop(config);
    if listOps.Raises? {
      return Raises(listOps.error);
    }
    extra := extra + listOps.value;
    if extra != [] {
      return Ok(Invalid(ConfigHeader + Join("\n", extra)));
    }
    return Ok(Valid);
  }

  /** A configuration the validator accepts, whose runbook fields use accepted
      conversions and format specs, renders every runbook the engine selects without raising. */
  lemma {:induction false} ValidConfigRendersRunbooks(routes: Dict, schemaErrors: seq<string>, services: seq<string>,
                                   profileNames: seq<string>, v: Values)
    requires ValidateRoutesConfig(routes, schemaErrors) == Ok(Valid)
    requires forall line :: line in IterRunbooks(routes) ==> ApplicableFields(line)
    ensures RenderRunbook(ResolveRunbook(routes, services, profileNames), v).Ok?
  {
    var steps := ResolveRunbook(routes, services, profileNames);
    ResolvedRunbookListed(routes, services, profileNames);
    var lines := IterRunbooks(routes);
    assert PlaceholderErrors(lines) == [];
    PlaceholderErrorsNone(lines);
    forall i | 0 <= i < |steps| ensures RenderStep(steps[i], v).Ok? {
      assert steps[i] in lines;
      var j :| 0 <= j < |lines| && lines[j] == steps[i];
      ValidLineRenders(steps[i], v);
    }
  }
}
