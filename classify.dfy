/** Classification of an alert against the configuration: the drop filter, the priority
    (P1) rules of the services' profiles, the profiles of a set of services, and the
    runbook cascade (app.py, `_get_service_profiles` to `_resolve_runbook`). */
module Classify {
  import opened PyJson
  import opened SeqSets
  import opened Rules
  import opened RouteConfig

  // ----- rule lists -----

  /** A rule that ends the scan of `any(isinstance(rule, dict) and _match_rule(rule, context)
      for rule in rules)`: a mapping that matches or raises. */
  predicate Decisive(rule: Json, context: Dict, search: (string, string) -> bool) {
    rule.JObj? && MatchRule(rule.entries, context, search) != Ok(false)
  }

  /** The position of the first decisive rule, `|rules|` if there is none. */
  function FirstDecisive(rules: seq<Json>, context: Dict, search: (string, string) -> bool): (k: nat)
    ensures k <= |rules|
    ensures k < |rules| ==> Decisive(rules[k], context, search)
    ensures forall j :: 0 <= j < k ==> !Decisive(rules[j], context, search)
  {
    if rules == [] then 0
    else if Decisive(rules[0], context, search) then 0
    else
      var k := FirstDecisive(rules[1..], context, search);
      assert forall j :: 1 <= j < |rules| ==> rules[j] == rules[1..][j - 1];
      1 + k
  }

  /** Some mapping rule of the list matches. */
  predicate SomeRuleMatches(rules: seq<Json>, context: Dict, search: (string, string) -> bool) {
    exists i :: 0 <= i < |rules| && rules[i].JObj? && MatchRule(rules[i].entries, context, search) == Ok(true)
  }

  /** Every mapping rule of the list evaluates, to false. */
  predicate NoRuleMatches(rules: seq<Json>, context: Dict, search: (string, string) -> bool) {
    forall i :: 0 <= i < |rules| && rules[i].JObj? ==> MatchRule(rules[i].entries, context, search) == Ok(false)
  }

  /** The rule loop of `_should_drop` and the `any` of `_is_p1`: the first mapping rule
      that matches makes it true, and a rule that raises stops it. */
  function AnyRuleMatches(rules: seq<Json>, context: Dict, search: (string, string) -> bool): (r: Py<bool>)
    ensures r == Ok(true) ==> SomeRuleMatches(rules, context, search)
    ensures r.Raises? ==>
      exists i :: 0 <= i < |rules| && rules[i].JObj? && MatchRule(rules[i].entries, context, search) == r
    ensures NoRuleMatches(rules, context, search) ==> r == Ok(false)
  {
    if rules == [] then Ok(false)
    else
      var rest := AnyRuleMatches(rules[1..], context, search);
      assert forall i :: 1 <= i < |rules| ==> rules[i] == rules[1..][i - 1];
      if rules[0].JObj? then
        var hit :- MatchRule(rules[0].entries, context, search);
        if hit then Ok(true) else rest
      else rest
  }

  /** The rule list is decided by its first decisive rule: false when there is none, and
      otherwise what that rule gives, true or the exception it raises. */
  lemma {:induction false} AnyRuleMatchesFirst(rules: seq<Json>, context: Dict, search: (string, string) -> bool)
    ensures var k := FirstDecisive(rules, context, search);
      AnyRuleMatches(rules, context, search) ==
        if k == |rules| then Ok(false) else MatchRule(rules[k].entries, context, search)
  {
    if rules != [] && !Decisive(rules[0], context, search) {
      AnyRuleMatchesFirst(rules[1..], context, search);
    }
  }

  /** Two rule lists one after the other: the second is consulted only when the first is
      false. */
  lemma {:induction false} AnyRuleMatchesAppend(a: seq<Json>, b: seq<Json>, context: Dict, search: (string, string) -> bool)
    ensures AnyRuleMatches(a + b, context, search) ==
      match AnyRuleMatches(a, context, search)
      case Raises(e) => Raises(e)
      case Ok(hit) => if hit then Ok(true) else AnyRuleMatches(b, context, search)
  {
    if a == [] {
      assert a + b == b;
    } else {
      AnyRuleMatchesAppend(a[1..], b, context, search);
      AnyRuleMatchesAppendStep(a, b, context, search);
    }
  }

  lemma {:induction false} AnyRuleMatchesAppendStep(a: seq<Json>, b: seq<Json>, context: Dict, search: (string, string) -> bool)
    requires a != []
    requires AnyRuleMatches(a[1..] + b, context, search) ==
      OrElse(AnyRuleMatches(a[1..], context, search), AnyRuleMatches(b, context, search))
    ensures AnyRuleMatches(a + b, context, search) ==
      OrElse(AnyRuleMatches(a, context, search), AnyRuleMatches(b, context, search))
  {
    AppendTail(a, b);
    AnyRuleMatchesCons(a + b, context, search);
    AnyRuleMatchesCons(a, context, search);
    var first := if a[0].JObj? then MatchRule(a[0].entries, context, search) else Ok(false);
    OrElseStep(first, AnyRuleMatches(a[1..], context, search), AnyRuleMatches(b, context, search),
      AnyRuleMatches(a[1..] + b, context, search), AnyRuleMatches(a + b, context, search), AnyRuleMatches(a, context, search));
  }

  /** What `OrElseStep` is about: a rule outcome followed by the rest of a loop. */
  function OrElse(first: Py<bool>, rest: Py<bool>): Py<bool> {
    match first
    case Raises(e) => Raises(e)
    case Ok(hit) => if hit then Ok(true) else rest
  }

  /** Short-circuiting is associative: the argument of `AnyRuleMatchesAppendStep`, on values. */
  lemma {:induction false} OrElseStep(first: Py<bool>, tail: Py<bool>, other: Py<bool>, tailOther: Py<bool>, whole: Py<bool>, head: Py<bool>)
    requires tailOther == OrElse(tail, other)
    requires whole == OrElse(first, tailOther) && head == OrElse(first, tail)
    ensures whole == OrElse(head, other)
  {
  }

  /** One step of the rule loop. */
  lemma {:induction false} AnyRuleMatchesCons(rules: seq<Json>, context: Dict, search: (string, string) -> bool)
    requires rules != []
    ensures AnyRuleMatches(rules, context, search) ==
      OrElse(if rules[0].JObj? then MatchRule(rules[0].entries, context, search) else Ok(false),
        AnyRuleMatches(rules[1..], context, search))
  {
  }

  /** `_should_drop(context)`. */
  function ShouldDrop(routes: Dict, context: Dict, search: (string, string) -> bool): (r: Py<bool>)
    ensures var rules := DropRules(routes); var k := FirstDecisive(rules, context, search);
      r == if k == |rules| then Ok(false) else MatchRule(rules[k].entries, context, search)
    ensures DropRules(routes) == [] ==> r == Ok(false)
  {
    AnyRuleMatchesFirst(DropRules(routes), context, search);
    AnyRuleMatches(DropRules(routes), context, search)
  }

  // ----- priority -----

  /** The `p1` rules of a profile; a missing or malformed profile or rule list has none. */
  function P1Rules(profiles: Dict, name: string): seq<Json> {
    var profile := GetOr(profiles, name, JObj([]));
    if !profile.JObj? then []
    else
      var rules := GetOr(profile.entries, "p1", JList([]));
      if rules.JList? then rules.items else []
  }

  /** `_is_p1(profile_names, context)`. */
  function IsP1(profiles: Dict, names: seq<string>, context: Dict, search: (string, string) -> bool): (r: Py<bool>)
    ensures r == Ok(true) ==>
      exists j :: 0 <= j < |names| && SomeRuleMatches(P1Rules(profiles, names[j]), context, search)
    ensures (forall j :: 0 <= j < |names| ==> NoRuleMatches(P1Rules(profiles, names[j]), context, search)) ==>
      r == Ok(false)
  {
    if names == [] then Ok(false)
    else
      assert forall j :: 1 <= j < |names| ==> names[j] == names[1..][j - 1];
      var profile := GetOr(profiles, names[0], JObj([]));
      if !profile.JObj? then IsP1(profiles, names[1..], context, search)
      else
        var rules := GetOr(profile.entries, "p1", JList([]));
        if !rules.JList? then IsP1(profiles, names[1..], context, search)
        else
          var hit :- AnyRuleMatches(rules.items, context, search);
          if hit then Ok(true) else IsP1(profiles, names[1..], context, search)
  }

  /** The `p1` rules of the profiles, in profile order, as one list. */
  function AllP1Rules(profiles: Dict, names: seq<string>): seq<Json> {
    if names == [] then [] else P1Rules(profiles, names[0]) + AllP1Rules(profiles, names[1..])
  }

  /** An alert is P1 exactly when the `p1` rules of its profiles, read as one list in
      profile order, match it. */
  lemma {:induction false} IsP1AllRules(profiles: Dict, names: seq<string>, context: Dict, search: (string, string) -> bool)
    ensures IsP1(profiles, names, context, search) == AnyRuleMatches(AllP1Rules(profiles, names), context, search)
  {
    if names != [] {
      IsP1AllRules(profiles, names[1..], context, search);
      AnyRuleMatchesAppend(P1Rules(profiles, names[0]), AllP1Rules(profiles, names[1..]), context, search);
    }
  }

  // ----- the profiles of a set of services -----

  /** `[str(p) for p in profiles if p]`. */
  function TruthyTexts(items: seq<Json>): (r: seq<string>)
    ensures forall x :: x in r ==> exists v :: v in items && Truthy(v) && x == Str(v)
    ensures forall v :: v in items && Truthy(v) ==> Str(v) in r
  {
    if items == [] then []
    else
      var init := TruthyTexts(items[..|items| - 1]);
      var last := items[|items| - 1];
      assert forall v :: v in items[..|items| - 1] ==> v in items;
      if Truthy(last) then init + [Str(last)] else init
  }

  /** The profile names a service's configuration lists. */
  function ProfilesOf(servicesCfg: Dict, service: string): seq<string> {
    var cfg := GetOr(servicesCfg, service, JObj([]));
    if !cfg.JObj? then []
    else
      var profiles := GetOr(cfg.entries, "profiles", JList([]));
      if profiles.JList? then TruthyTexts(profiles.items) else []
  }

  /** The profile names of several services, one service after the other. */
  function ProfileNames(servicesCfg: Dict, names: seq<string>): (r: seq<string>)
    ensures forall x :: x in r ==> exists k :: 0 <= k < |names| && x in ProfilesOf(servicesCfg, names[k])
    ensures forall k, x :: 0 <= k < |names| && x in ProfilesOf(servicesCfg, names[k]) ==> x in r
  {
    if names == [] then []
    else
      var init := names[..|names| - 1];
      var r := ProfileNames(servicesCfg, init) + ProfilesOf(servicesCfg, names[|names| - 1]);
      assert forall k :: 0 <= k < |init| ==> init[k] == names[k];
      r
  }

  /** `_get_service_profiles(services)`: the distinct profile names of the services, in
      order of first occurrence, the services taken in sorted order. */
  function ServiceProfiles(servicesCfg: Dict, services: seq<string>): (r: seq<string>)
    ensures Distinct(r)
    ensures forall x :: x in r ==> exists s :: s in services && x in ProfilesOf(servicesCfg, s)
    ensures forall s, x :: s in services && x in ProfilesOf(servicesCfg, s) ==> x in r
  {
    SortMembers(services);
    var sorted := Sort(services);
    assert forall s :: s in services ==> exists k :: 0 <= k < |sorted| && sorted[k] == s;
    Dedup(ProfileNames(servicesCfg, Sort(services)))
  }

  /** The two loops of `_get_service_profiles`: `extend` over the sorted services, then
      the `seen`/`unique` pass. */
  method GetServiceProfiles(servicesCfg: Dict, services: seq<string>) returns (unique: seq<string>)
    ensures unique == ServiceProfiles(servicesCfg, services)
  {
    var names := ProfileNamesLoop(servicesCfg, Sort(services));
    unique := DedupLoop(names);
  }

  /** The `extend` loop over the sorted services. */
  method ProfileNamesLoop(servicesCfg: Dict, sorted: seq<string>) returns (names: seq<string>)
    ensures names == ProfileNames(servicesCfg, sorted)
  {
    names := [];
    var i := 0;
    while i < |sorted|
      invariant 0 <= i <= |sorted|
      invariant names == ProfileNames(servicesCfg, sorted[..i])
    {
      assert sorted[..i + 1][..i] == sorted[..i];
      names := names + ProfilesOf(servicesCfg, sorted[i]);
      i := i + 1;
    }
    assert sorted[..i] == sorted;
  }

  /** The `seen`/`unique` pass: the names without repeats, in order of first occurrence. */
  method DedupLoop(names: seq<string>) returns (unique: seq<string>)
    ensures unique == Dedup(names)
  {
    var seen: set<string> := {};
    unique := [];
    var j := 0;
    while j < |names|
      invariant 0 <= j <= |names|
      invariant unique == Dedup(names[..j])
      invariant forall x :: x in seen <==> x in unique
    {
      DedupStep(names, j);
      if names[j] !in seen {
        seen := seen + {names[j]};
        unique := unique + [names[j]];
      }
      j := j + 1;
    }
    assert names[..j] == names;
  }

  // ----- the runbook cascade -----

  /** The runbook an entry of `services` or `profiles` declares, when it is a list. */
  function RunbookOf(table: Dict, name: string): Option<seq<Json>> {
    var entry := GetOr(table, name, JObj([]));
    if entry.JObj? && At(entry.entries, "runbook").JList? then Some(At(entry.entries, "runbook").items)
    else None
  }

  /** The position of the first name with a list runbook, `|names|` if there is none. */
  function RunbookIndex(table: Dict, names: seq<string>): (k: nat)
    ensures k <= |names|
    ensures k < |names| ==> RunbookOf(table, names[k]).Some?
    ensures forall j :: 0 <= j < k ==> RunbookOf(table, names[j]).None?
  {
    if names == [] then 0
    else if RunbookOf(table, names[0]).Some? then 0
    else
      var k := RunbookIndex(table, names[1..]);
      assert forall j :: 1 <= j < |names| ==> names[j] == names[1..][j - 1];
      1 + k
  }

  /** The first list runbook among `names`, which may be empty. */
  function FirstRunbook(table: Dict, names: seq<string>): (r: Option<seq<Json>>)
    ensures r.None? <==> forall j :: 0 <= j < |names| ==> RunbookOf(table, names[j]).None?
    ensures r.Some? ==> r == RunbookOf(table, names[RunbookIndex(table, names)])
  {
    var k := RunbookIndex(table, names);
    if k < |names| then RunbookOf(table, names[k]) else None
  }

  /** `[str(line) for line in runbook]`. */
  function Lines(items: seq<Json>): (r: seq<string>)
    ensures |r| == |items| && forall i :: 0 <= i < |items| ==> r[i] == Str(items[i])
  {
    seq(|items|, i requires 0 <= i < |items| => Str(items[i]))
  }

  /** The default runbook: `defaults.runbook` when it is a list. */
  function DefaultRunbook(routes: Dict): seq<string> {
    var runbook := GetOr(Defaults(routes), "runbook", JList([]));
    if runbook.JList? then Lines(runbook.items) else []
  }

  /** `_resolve_runbook(services, profile_names)`: the first service in sorted order with a
      list runbook, else the first profile with one, else the default runbook. */
  function ResolveRunbook(routes: Dict, services: seq<string>, profileNames: seq<string>): (r: seq<string>)
    ensures FirstRunbook(Services(routes), Sort(services)).Some? ==>
      r == Lines(FirstRunbook(Services(routes), Sort(services)).value)
    ensures FirstRunbook(Services(routes), Sort(services)).None? && FirstRunbook(Profiles(routes), profileNames).Some? ==>
      r == Lines(FirstRunbook(Profiles(routes), profileNames).value)
    ensures FirstRunbook(Services(routes), Sort(services)).None? && FirstRunbook(Profiles(routes), profileNames).None? ==>
      r == DefaultRunbook(routes)
  {
    match FirstRunbook(Services(routes), Sort(services))
    case Some(lines) => Lines(lines)
    case None =>
      match FirstRunbook(Profiles(routes), profileNames)
      case Some(lines) => Lines(lines)
      case None => DefaultRunbook(routes)
  }

  /** The service runbook that wins is that of the least service name, in sorted order,
      whose runbook is a list, even an empty one. */
  lemma {:induction false} ServiceRunbookWins(routes: Dict, services: seq<string>, profileNames: seq<string>, s: string)
    requires s in services && RunbookOf(Services(routes), s).Some?
    requires forall t :: t in services && RunbookOf(Services(routes), t).Some? ==> StrLe(s, t)
    ensures ResolveRunbook(routes, services, profileNames) == Lines(RunbookOf(Services(routes), s).value)
  {
    SortMembers(services);
    LeastRunbookFirst(Services(routes), Sort(services), s);
  }

  /** In a sorted list, the first name with a runbook is the least such name. */
  lemma {:induction false} LeastRunbookFirst(table: Dict, sorted: seq<string>, s: string)
    requires Sorted(sorted) && s in sorted && RunbookOf(table, s).Some?
    requires forall t :: t in sorted && RunbookOf(table, t).Some? ==> StrLe(s, t)
    ensures RunbookIndex(table, sorted) < |sorted| && sorted[RunbookIndex(table, sorted)] == s
  {
    var i :| 0 <= i < |sorted| && sorted[i] == s;
    var k := RunbookIndex(table, sorted);
    assert k <= i;
    assert sorted[k] in sorted;
    StrLeAntisymmetric(s, sorted[k]);
  }

  /** Without a service runbook, the first listed profile with a list runbook wins. */
  lemma {:induction false} ProfileRunbookWins(routes: Dict, services: seq<string>, profileNames: seq<string>, k: nat)
    requires forall t :: t in services ==> RunbookOf(Services(routes), t).None?
    requires k < |profileNames| && RunbookOf(Profiles(routes), profileNames[k]).Some?
    requires forall j :: 0 <= j < k ==> RunbookOf(Profiles(routes), profileNames[j]).None?
    ensures ResolveRunbook(routes, services, profileNames) == Lines(RunbookOf(Profiles(routes), profileNames[k]).value)
  {
    SortMembers(services);
    var sorted := Sort(services);
    forall j | 0 <= j < |sorted| ensures RunbookOf(Services(routes), sorted[j]).None? {
      assert sorted[j] in services;
    }
    var m := RunbookIndex(Profiles(routes), profileNames);
    assert m == k;
  }
}
