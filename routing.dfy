/** Delivery routing: which chat and topic an alert goes to (app.py, `_match_route` and
    `resolve_target`). Routes are tried in order; a route's `match` mapping holds
    case-insensitive substring patterns for the service, host and monitor. */
module Routing {
  import opened PyJson
  import opened PyStr
  import opened RouteConfig

  /** `any(p in s.lower() for s in texts)`. */
  predicate AnyContains(texts: seq<string>, p: string) {
    exists i :: 0 <= i < |texts| && Contains(Lower(texts[i]), p)
  }

  /** One entry of a route's `match` mapping; keys other than service, host and monitor
      are ignored. */
  predicate EntryHolds(key: string, pattern: Json, services: seq<string>, hosts: seq<string>, monitor: string) {
    var p := Lower(Str(pattern));
    if key == "service" then AnyContains(services, p)
    else if key == "host" then AnyContains(hosts, p)
    else if key == "monitor" then Contains(Lower(monitor), p)
    else true
  }

  /** The loop of `_match_route` over `rules.items()`, stopping at the first entry that
      fails. */
  function MatchEntries(entries: Dict, services: seq<string>, hosts: seq<string>, monitor: string): (r: bool)
    ensures r <==> forall k :: 0 <= k < |entries| ==> EntryHolds(entries[k].0, entries[k].1, services, hosts, monitor)
  {
    if entries == [] then true
    else if !EntryHolds(entries[0].0, entries[0].1, services, hosts, monitor) then false
    else
      var r := MatchEntries(entries[1..], services, hosts, monitor);
      assert forall k :: 1 <= k < |entries| ==> entries[k] == entries[1..][k - 1];
      r
  }

  /** `_match_route(rules, ...)`: every entry of the mapping must hold; a `match` that is
      not a mapping raises `AttributeError` at `rules.items()`. */
  function MatchRoute(rules: Json, services: seq<string>, hosts: seq<string>, monitor: string): (r: Py<bool>)
    ensures r.Ok? <==> rules.JObj?
    ensures r.Raises? ==> r.error == AttributeError
    ensures r.Ok? ==> (r.value <==> forall k :: 0 <= k < |rules.entries| ==>
                         EntryHolds(rules.entries[k].0, rules.entries[k].1, services, hosts, monitor))
  {
    if rules.JObj? then Ok(MatchEntries(rules.entries, services, hosts, monitor)) else Raises(AttributeError)
  }

  /** Matching is case-insensitive on the alert's side: lowering the services, hosts and
      monitor name first changes nothing. */
  lemma {:induction false} MatchRouteCaseInsensitive(rules: Json, services: seq<string>, hosts: seq<string>, monitor: string)
    ensures MatchRoute(rules, LowerAll(services), LowerAll(hosts), Lower(monitor)) == MatchRoute(rules, services, hosts, monitor)
  {
    forall s: string ensures Lower(Lower(s)) == Lower(s) {
      forall k | 0 <= k < |s| ensures Lower(Lower(s))[k] == Lower(s)[k] {
        assert LowerChar(LowerChar(s[k])) == LowerChar(s[k]);
      }
    }
    if rules.JObj? {
      forall k | 0 <= k < |rules.entries|
        ensures EntryHolds(rules.entries[k].0, rules.entries[k].1, LowerAll(services), LowerAll(hosts), Lower(monitor))
            == EntryHolds(rules.entries[k].0, rules.entries[k].1, services, hosts, monitor)
      {
        var p := Lower(Str(rules.entries[k].1));
        assert AnyContains(LowerAll(services), p) == AnyContains(services, p);
        assert AnyContains(LowerAll(hosts), p) == AnyContains(hosts, p);
      }
    }
  }

  function LowerAll(texts: seq<string>): (r: seq<string>)
    ensures |r| == |texts| && forall i :: 0 <= i < |texts| ==> r[i] == Lower(texts[i])
  {
    seq(|texts|, i requires 0 <= i < |texts| => Lower(texts[i]))
  }

  /** Where a message goes: a chat id and a topic (any configured value, `None` when
      absent). */
  datatype Target = Target(chat: string, topic: Json)

  /** The target without a routes configuration: the chat id from the environment and
      `int(topic_id)` when a topic id is set, which raises `ValueError` when it is not an
      integer. */
  function EnvTarget(settings: Settings): (r: Py<Target>)
    ensures r.Raises? <==> settings.telegramTopicId != "" && ParseInt(settings.telegramTopicId).None?
    ensures r.Raises? ==> r.error == ValueError
    ensures r.Ok? ==> r.value.chat == settings.telegramChatId
    ensures r.Ok? ==> (r.value.topic == JNull <==> settings.telegramTopicId == "")
    ensures r.Ok? && settings.telegramTopicId != "" ==> r.value.topic == JInt(ParseInt(settings.telegramTopicId).value)
  {
    if settings.telegramTopicId == "" then Ok(Target(settings.telegramChatId, JNull))
    else
      match ParseInt(settings.telegramTopicId)
      case Some(i) => Ok(Target(settings.telegramChatId, JInt(i)))
      case None => Raises(ValueError)
  }

  /** A topic id written as an integer reaches the target as that integer. */
  lemma {:induction false} EnvTargetTopic(settings: Settings, i: int)
    requires settings.telegramTopicId == Decimal(i)
    ensures EnvTarget(settings) == Ok(Target(settings.telegramChatId, JInt(i)))
  {
    ParseDecimal(i);
  }

  /** `value.get(key, default)` with a key of any type: `AttributeError` on a non-mapping,
      `TypeError` for an unhashable key. */
  function DictGet(value: Json, key: Json, default: Json): (r: Py<Json>)
    ensures r.Raises? <==> !value.JObj? || !Hashable(key)
    ensures r.Raises? ==> r.error == if value.JObj? then TypeError else AttributeError
    ensures r.Ok? && key.JStr? ==> r.value == GetOr(value.entries, key.s, default)
    ensures r.Ok? && !key.JStr? ==> r.value == default
  {
    if value.JObj? then Lookup(value.entries, key, default) else Raises(AttributeError)
  }

  function Groups(routes: Dict): Json {
    GetOr(routes, "groups", JObj([]))
  }

  function Topics(routes: Dict): Json {
    GetOr(routes, "topics", JObj([]))
  }

  function DefaultGroup(routes: Dict): Json {
    GetOr(routes, "default_group", JStr(""))
  }

  function DefaultTopic(routes: Dict): Json {
    GetOr(routes, "default_topic", JStr(""))
  }

  /** `str(groups.get(gname, "")), topics.get(tname)`. */
  function TargetOf(routes: Dict, gname: Json, tname: Json): (r: Py<Target>)
    ensures r.Raises? <==> !Groups(routes).JObj? || !Hashable(gname) || !Topics(routes).JObj? || !Hashable(tname)
    ensures r.Ok? && gname.JStr? && HasKey(Groups(routes).entries, gname.s) ==>
      r.value.chat == Str(At(Groups(routes).entries, gname.s))
    ensures r.Ok? && tname.JStr? ==> r.value.topic == At(Topics(routes).entries, tname.s)
  {
    GetSpecOf(Groups(routes), gname);
    var chat :- DictGet(Groups(routes), gname, JStr(""));
    var topic :- DictGet(Topics(routes), tname, JNull);
    Ok(Target(Str(chat), topic))
  }

  /** A group or topic the configuration does not name gives an empty chat id and no topic. */
  lemma {:induction false} UnknownNamesTarget(routes: Dict, gname: Json, tname: Json)
    requires Groups(routes).JObj? && Topics(routes).JObj? && Hashable(gname) && Hashable(tname)
    requires !(gname.JStr? && HasKey(Groups(routes).entries, gname.s))
    requires !(tname.JStr? && HasKey(Topics(routes).entries, tname.s))
    ensures TargetOf(routes, gname, tname) == Ok(Target("", JNull))
  {
    if gname.JStr? { GetSpec(Groups(routes).entries, gname.s); }
    if tname.JStr? { GetSpec(Topics(routes).entries, tname.s); }
  }

  /** The target of the defaults, when no route matches. */
  function DefaultTarget(routes: Dict): Py<Target> {
    TargetOf(routes, DefaultGroup(routes), DefaultTopic(routes))
  }

  /** The target of a matching route: its own group and topic, or the defaults. */
  function RouteTarget(routes: Dict, route: Dict): Py<Target> {
    TargetOf(routes, GetOr(route, "group", DefaultGroup(routes)), GetOr(route, "topic", DefaultTopic(routes)))
  }

  /** The route loop of `resolve_target`: `route.get` raises `AttributeError` on a route
      that is not a mapping. */
  function FromRoutes(routes: Dict, rs: seq<Json>, services: seq<string>, hosts: seq<string>, monitor: string): (r: Py<Target>)
    ensures (forall j :: 0 <= j < |rs| ==> Passes(rs[j], services, hosts, monitor)) ==> r == DefaultTarget(routes)
    ensures rs != [] && Catches(rs[0], services, hosts, monitor) ==> r == RouteTarget(routes, rs[0].entries)
  {
    if rs == [] then DefaultTarget(routes)
    else
      assert forall j :: 0 <= j < |rs| - 1 ==> rs[1..][j] == rs[j + 1];
      var rules :- MethodGet(rs[0], "match", JObj([]));
      var hit :- MatchRoute(rules, services, hosts, monitor);
      if hit then RouteTarget(routes, rs[0].entries) else FromRoutes(routes, rs[1..], services, hosts, monitor)
  }

  /** `resolve_target(services=..., hosts=..., monitor=...)`. */
  function ResolveTarget(routes: Dict, settings: Settings, services: seq<string>, hosts: seq<string>, monitor: string): (r: Py<Target>)
    ensures routes == [] ==> r == EnvTarget(settings)
    ensures routes != [] && Iterate(GetOr(routes, "routes", JList([]))).Raises? ==> r.Raises?
  {
    if routes == [] then EnvTarget(settings)
    else
      var rs :- Iterate(GetOr(routes, "routes", JList([])));
      FromRoutes(routes, rs, services, hosts, monitor)
  }

  /** A route that is tried and does not match: a mapping whose `match` is a mapping
      (possibly its default `{}`) with an entry that fails. */
  predicate Passes(route: Json, services: seq<string>, hosts: seq<string>, monitor: string) {
    route.JObj? && MatchRoute(GetOr(route.entries, "match", JObj([])), services, hosts, monitor) == Ok(false)
  }

  predicate Catches(route: Json, services: seq<string>, hosts: seq<string>, monitor: string) {
    route.JObj? && MatchRoute(GetOr(route.entries, "match", JObj([])), services, hosts, monitor) == Ok(true)
  }

  lemma {:induction false} FromRoutesFirst(routes: Dict, rs: seq<Json>, services: seq<string>, hosts: seq<string>, monitor: string, k: nat)
    requires k <= |rs|
    requires forall j :: 0 <= j < k ==> Passes(rs[j], services, hosts, monitor)
    ensures FromRoutes(routes, rs, services, hosts, monitor) == FromRoutes(routes, rs[k..], services, hosts, monitor)
  {
    if k > 0 {
      assert forall j :: 0 <= j < k - 1 ==> rs[1..][j] == rs[j + 1];
      FromRoutesFirst(routes, rs[1..], services, hosts, monitor, k - 1);
      assert rs[1..][k - 1..] == rs[k..];
    }
  }

  /** The first matching route decides the target: routes before it that do not match
      are passed over, and routes after it are never looked at. */
  lemma {:induction false} FirstMatchingRouteWins(routes: Dict, settings: Settings, services: seq<string>, hosts: seq<string>, monitor: string, k: nat)
    requires routes != [] && GetOr(routes, "routes", JList([])).JList?
    requires var rs := GetOr(routes, "routes", JList([])).items;
      k < |rs| && Catches(rs[k], services, hosts, monitor)
      && forall j :: 0 <= j < k ==> Passes(rs[j], services, hosts, monitor)
    ensures ResolveTarget(routes, settings, services, hosts, monitor)
         == RouteTarget(routes, GetOr(routes, "routes", JList([])).items[k].entries)
  {
    var rs := GetOr(routes, "routes", JList([])).items;
    FromRoutesFirst(routes, rs, services, hosts, monitor, k);
    assert rs[k..][0] == rs[k];
  }

  /** When every route is tried and none matches, the default group and topic decide. */
  lemma {:induction false} NoRouteMatches(routes: Dict, settings: Settings, services: seq<string>, hosts: seq<string>, monitor: string)
    requires routes != [] && GetOr(routes, "routes", JList([])).JList?
    requires var rs := GetOr(routes, "routes", JList([])).items;
      forall j :: 0 <= j < |rs| ==> Passes(rs[j], services, hosts, monitor)
    ensures ResolveTarget(routes, settings, services, hosts, monitor) == DefaultTarget(routes)
  {
    var rs := GetOr(routes, "routes", JList([])).items;
    FromRoutesFirst(routes, rs, services, hosts, monitor, |rs|);
    assert rs[|rs|..] == [];
  }

  /** The first route that is neither passed over nor matching is not a mapping or has a
      `match` that is not a mapping: `route.get` or `rules.items()` raises `AttributeError`. */
  lemma {:induction false} MalformedRouteRaises(routes: Dict, settings: Settings, services: seq<string>, hosts: seq<string>, monitor: string, k: nat)
    requires routes != [] && GetOr(routes, "routes", JList([])).JList?
    requires var rs := GetOr(routes, "routes", JList([])).items;
      k < |rs| && (!rs[k].JObj? || !GetOr(rs[k].entries, "match", JObj([])).JObj?)
      && forall j :: 0 <= j < k ==> Passes(rs[j], services, hosts, monitor)
    ensures ResolveTarget(routes, settings, services, hosts, monitor) == Raises(AttributeError)
  {
    var rs := GetOr(routes, "routes", JList([])).items;
    FromRoutesFirst(routes, rs, services, hosts, monitor, k);
    assert rs[k..][0] == rs[k];
  }

  /** The loop of `resolve_target`. */
  method ResolveTargetLoop(routes: Dict, settings: Settings, services: seq<string>, hosts: seq<string>, monitor: string)
    returns (r: Py<Target>)
    ensures r == ResolveTarget(routes, settings, services, hosts, monitor)
  {
    if routes == [] {
      return EnvTarget(settings);
    }
    var listed := Iterate(GetOr(routes, "routes", JList([])));
    if listed.Raises? {
      return Raises(listed.error);
    }
    var rs := listed.value;
    var i := 0;
    while i < |rs|
      invariant 0 <= i <= |rs|
      invariant FromRoutes(routes, rs[i..], services, hosts, monitor) == FromRoutes(routes, rs, services, hosts, monitor)
    {
      var rules := MethodGet(rs[i], "match", JObj([]));
      if rules.Raises? {
        return Raises(rules.error);
      }
      var hit := MatchRoute(rules.value, services, hosts, monitor);
      if hit.Raises? {
        return Raises(hit.error);
      }
      if hit.value {
        return RouteTarget(routes, rs[i].entries);
      }
      assert rs[i..][1..] == rs[i + 1..];
      i := i + 1;
    }
    return DefaultTarget(routes);
  }
}
