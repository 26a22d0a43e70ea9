/** PayloadNormalizer: pulls the monitor name, description, match count, time window
    and match records out of an alert payload whose shape varies between senders and
    between versions of the upstream product (app.py, `_get_nested` to
    `_extract_axiom_alert_fields`, plus the query-response reshaping helpers). */
module Payload {
  import opened PyJson
  import opened PyStr
  import opened SeqSets

  // ----- key paths -----

  /** `_get_nested(root, *keys)`: follows `keys` through nested dicts and yields `None`
      as soon as a step meets a non-dict or a missing/`None` value. */
  function Nested(root: Json, keys: seq<string>): Json
    decreases |keys|
  {
    if keys == [] then root
    else if !root.JObj? then JNull
    else Nested(At(root.entries, keys[0]), keys[1..])
  }

  /** Following a path is following its parts one after the other. */
  lemma {:induction false} NestedAppend(root: Json, p: seq<string>, q: seq<string>)
    ensures Nested(root, p + q) == Nested(Nested(root, p), q)
    decreases |p|
  {
    if p == [] {
      assert p + q == q;
    } else if !root.JObj? {
      NestedOfNull(q);
    } else {
      assert (p + q)[1..] == p[1..] + q;
      NestedAppend(At(root.entries, p[0]), p[1..], q);
    }
  }

  lemma {:induction false} NestedOfNull(q: seq<string>)
    ensures Nested(JNull, q) == JNull
  {
  }

  /** A path that yields something passed through a dict at every step. */
  lemma {:induction false} NestedFound(root: Json, keys: seq<string>)
    requires keys != [] && Nested(root, keys) != JNull
    ensures root.JObj? && HasKey(root.entries, keys[0])
  {
    if !root.JObj? {
    } else if !HasKey(root.entries, keys[0]) {
      GetSpec(root.entries, keys[0]);
      NestedOfNull(keys[1..]);
    }
  }

  /** The loop of `_get_nested`, with its early returns. */
  method GetNested(root: Json, keys: seq<string>) returns (r: Json)
    ensures r == Nested(root, keys)
  {
    var current := root;
    var i := 0;
    while i < |keys|
      invariant 0 <= i <= |keys|
      invariant Nested(root, keys) == Nested(current, keys[i..])
    {
      if !current.JObj? {
        return JNull;
      }
      assert keys[i..][1..] == keys[i + 1..];
      current := At(current.entries, keys[i]);
      if current == JNull {
        NestedOfNull(keys[i + 1..]);
        return JNull;
      }
      i := i + 1;
    }
    assert keys[i..] == [];
    return current;
  }

  /** Two dicts that agree on every key but `k`. */
  ghost predicate AgreeExcept(d1: Dict, d2: Dict, k: string) {
    forall key :: key != k ==> Get(d1, key) == Get(d2, key)
  }

  /** A path that does not start at `k` cannot tell such dicts apart. */
  lemma {:induction false} NestedAgreeExcept(d1: Dict, d2: Dict, k: string, keys: seq<string>)
    requires AgreeExcept(d1, d2, k)
    requires keys != [] && keys[0] != k
    ensures Nested(JObj(d1), keys) == Nested(JObj(d2), keys)
  {
    assert At(d1, keys[0]) == At(d2, keys[0]);
  }

  // ----- first usable value -----

  /** `_first_value` skips exactly `None` and `""`. */
  predicate Skipped(v: Json) {
    v == JNull || v == JStr("")
  }

  /** `_first_value(*values)`. */
  function FirstValue(values: seq<Json>): (r: Json)
    ensures !Skipped(r) <==> exists k :: 0 <= k < |values| && !Skipped(values[k])
    ensures !Skipped(r) ==> exists k :: 0 <= k < |values| && values[k] == r
                                      && forall j :: 0 <= j < k ==> Skipped(values[j])
    ensures Skipped(r) ==> r == JNull
  {
    if values == [] then JNull
    else if !Skipped(values[0]) then values[0]
    else
      var r := FirstValue(values[1..]);
      assert forall k :: 1 <= k < |values| ==> values[k] == values[1..][k - 1];
      assert !Skipped(r) ==> exists k :: 0 <= k < |values| && values[k] == r
                                      && forall j :: 0 <= j < k ==> Skipped(values[j]) by {
        if !Skipped(r) {
          var k :| 0 <= k < |values[1..]| && values[1..][k] == r
                   && forall j :: 0 <= j < k ==> Skipped(values[1..][j]);
          assert values[k + 1] == r && forall j :: 0 <= j < k + 1 ==> Skipped(values[j]);
        }
      }
      r
  }

  // ----- candidate roots -----

  /** `_coerce_event_body(event)`: the event's `body` when it is a dict, or the decoding of
      a string body when that decodes to a dict. `decoded` is what `json.loads` yields for a
      string body (`None` for text that is not JSON). */
  function EventBody(event: Dict, decoded: Option<Json>): (r: Option<Dict>)
    ensures At(event, "body").JObj? ==> r == Some(At(event, "body").entries)
    ensures r.Some? && !At(event, "body").JObj? ==> At(event, "body").JStr? && decoded == Some(JObj(r.value))
  {
    var body := At(event, "body");
    if body.JObj? then Some(body.entries)
    else if body.JStr? && decoded.Some? && decoded.value.JObj? then Some(decoded.value.entries)
    else None
  }

  /** The three places aliases are looked up: the payload, its `event` (an empty dict when
      there is none) and the event's body (an empty dict when there is none). */
  datatype Roots = Roots(payload: Dict, event: Dict, body: Dict)

  function RootsOf(payload: Dict, decoded: Option<Json>): Roots {
    var eventDict := EventDict(payload);
    Roots(payload, eventDict, EventBody(eventDict, decoded).GetOr([]))
  }

  /** `payload.get("event")` when it is a dict, `{}` otherwise. */
  function EventDict(payload: Dict): (r: Dict)
    ensures At(payload, "event").JObj? ==> r == At(payload, "event").entries
    ensures !At(payload, "event").JObj? ==> r == []
  {
    var event := At(payload, "event");
    if event.JObj? then event.entries else []
  }

  /** The values `paths` lead to below one root. */
  function Probe(root: Dict, paths: seq<seq<string>>): (r: seq<Json>)
    ensures |r| == |paths|
    ensures forall k :: 0 <= k < |paths| ==> r[k] == Nested(JObj(root), paths[k])
  {
    seq(|paths|, k requires 0 <= k < |paths| => Nested(JObj(root), paths[k]))
  }

  /** The aliases of one field, as key paths below each root. The code tries every payload
      alias, then every event alias, then every body alias. */
  datatype AliasTable = AliasTable(onPayload: seq<seq<string>>, onEvent: seq<seq<string>>, onBody: seq<seq<string>>)

  /** The candidate values of a field, in the order the code passes them to `_first_value`. */
  function AliasValues(roots: Roots, t: AliasTable): seq<Json> {
    Probe(roots.payload, t.onPayload) + Probe(roots.event, t.onEvent) + Probe(roots.body, t.onBody)
  }

  /** The first usable value among the aliases of one field. */
  function FirstAlias(roots: Roots, t: AliasTable): Json {
    FirstValue(AliasValues(roots, t))
  }

  /** The first usable value is the one at the first position that is not skipped. */
  lemma {:induction false} FirstValueAt(values: seq<Json>, k: nat)
    requires k < |values| && !Skipped(values[k])
    requires forall j :: 0 <= j < k ==> Skipped(values[j])
    ensures FirstValue(values) == values[k]
  {
    var r := FirstValue(values);
    var i :| 0 <= i < |values| && values[i] == r && forall j :: 0 <= j < i ==> Skipped(values[j]);
    assert i == k;
  }

  /** A text field reads the first alias whose value is not `None` or `""`, as `str(v or "")`,
      and is empty when no alias has such a value. */
  lemma {:induction false} AliasText(roots: Roots, t: AliasTable, k: nat)
    requires k < |AliasValues(roots, t)| && !Skipped(AliasValues(roots, t)[k])
    requires forall j :: 0 <= j < k ==> Skipped(AliasValues(roots, t)[j])
    ensures TextOf(FirstAlias(roots, t)) == TextOf(AliasValues(roots, t)[k])
  {
    FirstValueAt(AliasValues(roots, t), k);
  }

  lemma {:induction false} NoAliasText(roots: Roots, t: AliasTable)
    requires forall j :: 0 <= j < |AliasValues(roots, t)| ==> Skipped(AliasValues(roots, t)[j])
    ensures TextOf(FirstAlias(roots, t)) == ""
  {
  }

  // The alias tables of `_extract_axiom_alert_fields`, in the order the code tries them.

  const NameAliases: AliasTable := AliasTable(
    [["name"], ["monitorName"], ["monitor", "name"], ["alert", "monitor", "name"], ["alert", "monitorName"]],
    [["title"], ["monitor", "name"], ["monitorName"], ["alert", "monitor", "name"], ["alert", "monitorName"]],
    [["name"], ["title"], ["monitor", "name"], ["monitorName"], ["alert", "monitor", "name"], ["alert", "monitorName"]])

  const DescriptionAliases: AliasTable := AliasTable(
    [["description"], ["monitor", "description"], ["alert", "monitor", "description"]],
    [["description"], ["monitor", "description"], ["alert", "monitor", "description"]],
    [["description"], ["monitor", "description"], ["alert", "monitor", "description"]])

  const CountAliases: AliasTable := AliasTable(
    [["matchedCount"], ["alert", "matchedCount"], ["alert", "matchCount"], ["matches", "count"], ["result", "count"]],
    [["value"], ["valueString"], ["extraCount"], ["matchedCount"], ["alert", "matchedCount"],
     ["alert", "matchCount"], ["matches", "count"], ["result", "count"]],
    [["matchedCount"], ["alert", "matchedCount"], ["alert", "matchCount"], ["matches", "count"], ["result", "count"]])

  const StartAliases: AliasTable := AliasTable(
    [["queryStartTime"], ["alert", "window", "start"], ["window", "start"], ["query", "startTime"], ["startTime"]],
    [["queryStartTime"], ["alert", "window", "start"], ["window", "start"], ["query", "startTime"], ["startTime"]],
    [["queryStartTime"], ["alert", "window", "start"], ["window", "start"], ["query", "startTime"], ["startTime"]])

  const EndAliases: AliasTable := AliasTable(
    [["queryEndTime"], ["alert", "window", "end"], ["window", "end"], ["query", "endTime"], ["endTime"]],
    [["queryEndTime"], ["alert", "window", "end"], ["window", "end"], ["query", "endTime"], ["endTime"]],
    [["queryEndTime"], ["alert", "window", "end"], ["window", "end"], ["query", "endTime"], ["endTime"]])

  /** Every path is non-empty and none starts at `key`. */
  predicate AvoidsKey(paths: seq<seq<string>>, key: string) {
    forall k :: 0 <= k < |paths| ==> paths[k] != [] && paths[k][0] != key
  }

  /** No payload alias walks into `event` and no event alias walks into `body`: the nested
      objects are reached only through their roots. */
  predicate RootsSeparate(t: AliasTable) {
    AvoidsKey(t.onPayload, "event") && AvoidsKey(t.onEvent, "body")
  }

  lemma {:induction false} AliasTablesSeparate()
    ensures RootsSeparate(NameAliases) && RootsSeparate(DescriptionAliases)
    ensures RootsSeparate(CountAliases) && RootsSeparate(StartAliases) && RootsSeparate(EndAliases)
  {
  }

  /** Root priority: once an alias on the payload itself yields a value, nothing in the
      event or its body can change the field. */
  lemma {:induction false} PayloadAliasWins(roots: Roots, roots': Roots, t: AliasTable, k: nat)
    requires roots.payload == roots'.payload
    requires k < |t.onPayload| && !Skipped(Nested(JObj(roots.payload), t.onPayload[k]))
    ensures FirstAlias(roots, t) == FirstAlias(roots', t)
  {
    FirstValueAgree(AliasValues(roots, t), AliasValues(roots', t), k);
  }

  /** Two value lists that agree up to and including a usable value at `k` have the same
      first usable value. */
  lemma {:induction false} FirstValueAgree(vs: seq<Json>, vs': seq<Json>, k: nat)
    requires k < |vs| && k < |vs'| && !Skipped(vs[k])
    requires forall i :: 0 <= i <= k ==> vs[i] == vs'[i]
    ensures FirstValue(vs) == FirstValue(vs')
  {
    if Skipped(vs[0]) {
      FirstValueAgree(vs[1..], vs'[1..], k - 1);
    }
  }

  // ----- match records -----

  /** The five places match lists are looked for, in the order `_coerce_matches` tries them. */
  const MatchPaths: seq<seq<string>> := [
    ["queryResult", "matches"],
    ["result", "matches"],
    ["matches", "matches"],
    ["alert", "matches"],
    ["matches"]
  ]

  /** The roots `_coerce_matches` probes: the payload, then the event if it is a non-empty
      dict, then the decoded body if it is a non-empty dict. */
  function MatchRoots(payload: Dict, decoded: Option<Json>): (r: seq<Dict>)
    ensures 1 <= |r| <= 3 && r[0] == payload
    ensures forall k :: 1 <= k < |r| ==> r[k] != []
    ensures var event := EventDict(payload);
      var body := EventBody(event, decoded).GetOr([]);
      && |r| == 1 + (if event != [] then 1 else 0) + (if body != [] then 1 else 0)
      && (event != [] ==> r[1] == event)
      && (body != [] ==> r[|r| - 1] == body)
  {
    var roots := RootsOf(payload, decoded);
    [payload] + (if roots.event != [] then [roots.event] else [])
      + (if roots.body != [] then [roots.body] else [])
  }

  /** The first candidate that is a list, if any. */
  function FirstList(values: seq<Json>): (r: Option<seq<Json>>)
    ensures r.Some? <==> exists k :: 0 <= k < |values| && values[k].JList?
    ensures r.Some? ==> exists k :: 0 <= k < |values| && values[k] == JList(r.value)
                                    && forall j :: 0 <= j < k ==> !values[j].JList?
  {
    if values == [] then None
    else if values[0].JList? then Some(values[0].items)
    else
      var r := FirstList(values[1..]);
      assert forall k :: 1 <= k < |values| ==> values[k] == values[1..][k - 1];
      assert r.Some? ==> exists k :: 0 <= k < |values| && values[k] == JList(r.value)
                                    && forall j :: 0 <= j < k ==> !values[j].JList? by {
        if r.Some? {
          var k :| 0 <= k < |values[1..]| && values[1..][k] == JList(r.value)
                   && forall j :: 0 <= j < k ==> !values[1..][j].JList?;
          assert values[k + 1] == JList(r.value);
        }
      }
      r
  }

  /** The first list among the candidates of the roots, root by root and path by path. */
  function FirstListIn(roots: seq<Dict>): Option<seq<Json>> {
    if roots == [] then None
    else
      match FirstList(Probe(roots[0], MatchPaths))
      case Some(items) => Some(items)
      case None => FirstListIn(roots[1..])
  }

  /** `[item for item in candidate if isinstance(item, dict)]`. */
  function Dicts(items: seq<Json>): (r: seq<Dict>)
    ensures |r| <= |items|
    ensures forall d :: d in r ==> JObj(d) in items
    ensures forall k :: 0 <= k < |items| && items[k].JObj? ==> items[k].entries in r
  {
    if items == [] then []
    else
      var init := items[..|items| - 1];
      var rest := Dicts(init);
      var last := items[|items| - 1];
      assert items == init + [last];
      assert forall k :: 0 <= k < |init| ==> items[k] == init[k];
      if last.JObj? then rest + [last.entries] else rest
  }

  /** Keeping the dicts of a concatenation keeps the dicts of each part, in order. */
  lemma {:induction false} DictsAppend(a: seq<Json>, b: seq<Json>)
    ensures Dicts(a + b) == Dicts(a) + Dicts(b)
    decreases |b|
  {
    if b == [] {
      assert a + b == a;
    } else {
      var b' := b[..|b| - 1];
      assert a + b == (a + b') + [b[|b| - 1]];
      assert (a + b)[..|a + b| - 1] == a + b';
      DictsAppend(a, b');
    }
  }

  /** One item is kept exactly when it is a dict. */
  lemma {:induction false} DictsOne(item: Json)
    ensures Dicts([item]) == if item.JObj? then [item.entries] else []
  {
    assert [item][..0] == [];
  }

  /** `_coerce_matches`: the dict items of the first list-typed candidate, even an empty one;
      `[]` when no candidate is a list. */
  function MatchList(payload: Dict, decoded: Option<Json>): seq<Dict> {
    match FirstListIn(MatchRoots(payload, decoded))
    case Some(items) => Dicts(items)
    case None => []
  }

  /** The root-by-root, path-by-path loop of `_coerce_matches`, returning on the first list. */
  method CoerceMatches(payload: Dict, decoded: Option<Json>) returns (r: seq<Dict>)
    ensures r == MatchList(payload, decoded)
  {
    var roots := MatchRoots(payload, decoded);
    var i := 0;
    while i < |roots|
      invariant 0 <= i <= |roots|
      invariant FirstListIn(roots) == FirstListIn(roots[i..])
    {
      var root := roots[i];
      var candidates := Probe(root, MatchPaths);
      var p := 0;
      while p < |candidates|
        invariant 0 <= p <= |candidates|
        invariant FirstList(candidates) == FirstList(candidates[p..])
      {
        var candidate := GetNested(JObj(root), MatchPaths[p]);
        if candidate.JList? {
          assert FirstListIn(roots[i..]) == Some(candidate.items);
          return Dicts(candidate.items);
        }
        assert candidates[p..][1..] == candidates[p + 1..];
        p := p + 1;
      }
      assert roots[i..][1..] == roots[i + 1..];
      i := i + 1;
    }
    return [];
  }

  /** The first list-typed candidate wins even when it is empty: an empty list under
      `queryResult.matches` hides the records under every later path and root. */
  lemma {:induction false} EmptyFirstListWins(payload: Dict, decoded: Option<Json>)
    requires Nested(JObj(payload), ["queryResult", "matches"]) == JList([])
    ensures MatchList(payload, decoded) == []
  {
  }

  /** Without a list under any of the five paths of any root there are no match records. */
  lemma {:induction false} NoListNoMatches(payload: Dict, decoded: Option<Json>)
    requires forall root, k :: root in MatchRoots(payload, decoded) && 0 <= k < |MatchPaths|
               ==> !Nested(JObj(root), MatchPaths[k]).JList?
    ensures MatchList(payload, decoded) == []
  {
    var roots := MatchRoots(payload, decoded);
    forall j | 0 <= j <= |roots| ensures FirstListIn(roots[j..]) == None {
      FirstListInNone(roots, j);
    }
    assert roots[0..] == roots;
  }

  lemma {:induction false} FirstListInNone(roots: seq<Dict>, j: nat)
    requires j <= |roots|
    requires forall root, k :: root in roots && 0 <= k < |MatchPaths| ==> !Nested(JObj(root), MatchPaths[k]).JList?
    ensures FirstListIn(roots[j..]) == None
    decreases |roots| - j
  {
    if j < |roots| {
      FirstListInNone(roots, j + 1);
      assert roots[j..][1..] == roots[j + 1..];
      assert roots[j..][0] in roots;
    }
  }

  // ----- the extracted alert -----

  /** What `_extract_axiom_alert_fields` returns. */
  datatype AlertFields = AlertFields(
    name: string,
    description: string,
    matchedCount: Json,
    tsStart: string,
    tsEnd: string,
    matches: seq<Dict>)

  /** `str(v or "")`. */
  function TextOf(v: Json): string {
    if Truthy(v) then Str(v) else ""
  }

  /** `_extract_axiom_alert_fields(payload)`. A dict-valued count is replaced by its
      `count` entry; a missing count falls back to the number of match records. */
  function ExtractAlertFields(payload: Dict, decoded: Option<Json>): (r: AlertFields)
    ensures r.matches == MatchList(payload, decoded)
    ensures var roots := RootsOf(payload, decoded);
      && r.name == TextOf(FirstAlias(roots, NameAliases))
      && r.description == TextOf(FirstAlias(roots, DescriptionAliases))
      && r.tsStart == TextOf(FirstAlias(roots, StartAliases))
      && r.tsEnd == TextOf(FirstAlias(roots, EndAliases))
    ensures var count := FirstAlias(RootsOf(payload, decoded), CountAliases);
      var read := if count.JObj? then At(count.entries, "count") else count;
      && (read != JNull ==> r.matchedCount == read)
      && (read == JNull && r.matches != [] ==> r.matchedCount == JInt(|r.matches|))
      && (r.matchedCount == JNull <==> read == JNull && r.matches == [])
  {
    FieldsFrom(RootsOf(payload, decoded), MatchList(payload, decoded))
  }

  /** The alert fields read from the roots, given the match records. */
  function FieldsFrom(roots: Roots, matches: seq<Dict>): (r: AlertFields)
    ensures r.matches == matches
    ensures r.matchedCount == JNull ==> matches == []
  {
    var count := FirstAlias(roots, CountAliases);
    var count' := if count.JObj? then At(count.entries, "count") else count;
    var count'' := if count' == JNull && matches != [] then JInt(|matches|) else count';
    AlertFields(TextOf(FirstAlias(roots, NameAliases)), TextOf(FirstAlias(roots, DescriptionAliases)), count'',
                TextOf(FirstAlias(roots, StartAliases)), TextOf(FirstAlias(roots, EndAliases)), matches)
  }


  lemma {:induction false} ProbeAgree(d1: Dict, d2: Dict, key: string, paths: seq<seq<string>>)
    requires AgreeExcept(d1, d2, key) && AvoidsKey(paths, key)
    ensures Probe(d1, paths) == Probe(d2, paths)
  {
    forall k | 0 <= k < |paths| ensures Probe(d1, paths)[k] == Probe(d2, paths)[k] {
      NestedAgreeExcept(d1, d2, key, paths[k]);
    }
  }

  lemma {:induction false} FirstListInAgree(r1: seq<Dict>, r2: seq<Dict>)
    requires |r1| == |r2|
    requires forall i :: 0 <= i < |r1| ==> Probe(r1[i], MatchPaths) == Probe(r2[i], MatchPaths)
    ensures FirstListIn(r1) == FirstListIn(r2)
  {
    if r1 != [] {
      FirstListInAgree(r1[1..], r2[1..]);
    }
  }

  lemma {:induction false} AliasAgree(p1: Dict, p2: Dict, e1: Dict, e2: Dict, body: Dict, t: AliasTable)
    requires AgreeExcept(p1, p2, "event") && AgreeExcept(e1, e2, "body") && RootsSeparate(t)
    ensures FirstAlias(Roots(p1, e1, body), t) == FirstAlias(Roots(p2, e2, body), t)
  {
    ProbeAgree(p1, p2, "event", t.onPayload);
    ProbeAgree(e1, e2, "body", t.onEvent);
  }

  lemma {:induction false} MatchListAgree(p1: Dict, p2: Dict, e1: Dict, e2: Dict, d: Dict, decoded2: Option<Json>)
    requires At(p1, "event") == JObj(e1) && At(p2, "event") == JObj(e2)
    requires AgreeExcept(p1, p2, "event") && AgreeExcept(e1, e2, "body")
    requires At(e1, "body").JStr? && At(e2, "body") == JObj(d)
    ensures MatchList(p1, Some(JObj(d))) == MatchList(p2, decoded2)
  {
    var r1, r2 := MatchRoots(p1, Some(JObj(d))), MatchRoots(p2, decoded2);
    assert AvoidsKey(MatchPaths, "event") && AvoidsKey(MatchPaths, "body");
    ProbeAgree(p1, p2, "event", MatchPaths);
    ProbeAgree(e1, e2, "body", MatchPaths);
    GetSpec(e1, "body");
    GetSpec(e2, "body");
    MatchRootsOfEvent(p1, e1, d, Some(JObj(d)));
    MatchRootsOfEvent(p2, e2, d, decoded2);
    FirstListInAgree(r1, r2);
  }

  /** The roots of a payload whose event has a body. */
  lemma {:induction false} MatchRootsOfEvent(p: Dict, e: Dict, d: Dict, decoded: Option<Json>)
    requires At(p, "event") == JObj(e) && HasKey(e, "body") && EventBody(e, decoded) == Some(d)
    ensures MatchRoots(p, decoded) == [p, e] + (if d != [] then [d] else [])
  {
    assert e != [];
    assert RootsOf(p, decoded) == Roots(p, e, d);
  }

  /** A monitor whose data sits in a JSON-encoded string body is read exactly as the same
      data given as an inline object body: the two payloads may differ only in the event's
      `body` entry. */
  lemma {:induction false} EncodedBodyLikeInline(p1: Dict, p2: Dict, e1: Dict, e2: Dict, text: string, d: Dict, decoded2: Option<Json>)
    requires At(p1, "event") == JObj(e1) && At(p2, "event") == JObj(e2)
    requires AgreeExcept(p1, p2, "event") && AgreeExcept(e1, e2, "body")
    requires At(e1, "body") == JStr(text) && At(e2, "body") == JObj(d)
    ensures ExtractAlertFields(p1, Some(JObj(d))) == ExtractAlertFields(p2, decoded2)
  {
    assert RootsOf(p1, Some(JObj(d))) == Roots(p1, e1, d);
    assert RootsOf(p2, decoded2) == Roots(p2, e2, d);
    AliasesAgree(p1, p2, e1, e2, d);
    MatchListAgree(p1, p2, e1, e2, d, decoded2);
    FieldsFromAgree(Roots(p1, e1, d), Roots(p2, e2, d), MatchList(p2, decoded2));
  }

  lemma {:induction false} FieldsFromAgree(r1: Roots, r2: Roots, matches: seq<Dict>)
    requires FirstAlias(r1, NameAliases) == FirstAlias(r2, NameAliases)
    requires FirstAlias(r1, DescriptionAliases) == FirstAlias(r2, DescriptionAliases)
    requires FirstAlias(r1, CountAliases) == FirstAlias(r2, CountAliases)
    requires FirstAlias(r1, StartAliases) == FirstAlias(r2, StartAliases)
    requires FirstAlias(r1, EndAliases) == FirstAlias(r2, EndAliases)
    ensures FieldsFrom(r1, matches) == FieldsFrom(r2, matches)
  {
  }

  lemma {:induction false} AliasesAgree(p1: Dict, p2: Dict, e1: Dict, e2: Dict, d: Dict)
    requires AgreeExcept(p1, p2, "event") && AgreeExcept(e1, e2, "body")
    ensures FirstAlias(Roots(p1, e1, d), NameAliases) == FirstAlias(Roots(p2, e2, d), NameAliases)
    ensures FirstAlias(Roots(p1, e1, d), DescriptionAliases) == FirstAlias(Roots(p2, e2, d), DescriptionAliases)
    ensures FirstAlias(Roots(p1, e1, d), CountAliases) == FirstAlias(Roots(p2, e2, d), CountAliases)
    ensures FirstAlias(Roots(p1, e1, d), StartAliases) == FirstAlias(Roots(p2, e2, d), StartAliases)
    ensures FirstAlias(Roots(p1, e1, d), EndAliases) == FirstAlias(Roots(p2, e2, d), EndAliases)
  {
    AliasTablesSeparate();
    AliasAgree(p1, p2, e1, e2, d, NameAliases);
    AliasAgree(p1, p2, e1, e2, d, DescriptionAliases);
    AliasAgree(p1, p2, e1, e2, d, CountAliases);
    AliasAgree(p1, p2, e1, e2, d, StartAliases);
    AliasAgree(p1, p2, e1, e2, d, EndAliases);
  }

  // ----- monitor name and status -----

  const StatusSeparator: string := ": "

  predicate IsStatusWord(w: string) {
    w == "triggered" || w == "resolved"
  }

  /** `_extract_alert_status(name)`: the lower-cased status prefix and the rest of the name,
      or no status and the name unchanged. */
  function AlertStatus(name: string): (r: (Option<string>, string))
    ensures r.0.Some? ==> IsStatusWord(r.0.value) && name == Before(name, StatusSeparator) + StatusSeparator + r.1
    ensures r.0.None? ==> r.1 == name
  {
    if !Contains(name, StatusSeparator) then (None, name)
    else
      var status := Lower(Before(name, StatusSeparator));
      if IsStatusWord(status) then (Some(status), After(name, StatusSeparator)) else (None, name)
  }

  /** `_normalize_monitor_name(name)`. */
  function NormalizeMonitorName(name: string): (r: string)
    ensures r == name || name == Before(name, StatusSeparator) + StatusSeparator + r
  {
    if !Contains(name, StatusSeparator) then name
    else
      var prefix := Before(name, StatusSeparator);
      if IsStatusWord(Lower(prefix)) then After(name, StatusSeparator) else name
  }

  /** A status is found exactly when the text before the first ": " is a status word in some
      letter case; the name is then what follows that separator, and otherwise unchanged. */
  lemma {:induction false} AlertStatusSpec(name: string)
    ensures AlertStatus(name).0.Some? <==>
      Contains(name, StatusSeparator) && IsStatusWord(Lower(Before(name, StatusSeparator)))
    ensures AlertStatus(name).0.Some? ==>
      IsStatusWord(AlertStatus(name).0.value)
      && name == Before(name, StatusSeparator) + StatusSeparator + AlertStatus(name).1
      && Lower(Before(name, StatusSeparator)) == AlertStatus(name).0.value
    ensures AlertStatus(name).0.None? ==> AlertStatus(name).1 == name
  {
  }

  /** The two helpers agree: normalising a name is keeping the second half of its status split. */
  lemma {:induction false} NormalizeIsStatusRest(name: string)
    ensures NormalizeMonitorName(name) == AlertStatus(name).1
  {
  }

  /** Round trip: a status word in any letter case, the separator and a title split back
      into the lower-cased status and exactly that title. */
  lemma {:induction false} AlertStatusOfPrefixed(word: string, title: string)
    requires IsStatusWord(Lower(word))
    ensures AlertStatus(word + StatusSeparator + title) == (Some(Lower(word)), title)
  {
    var name := word + StatusSeparator + title;
    assert OccursAt(name, StatusSeparator, |word|) by {
      assert name[|word|..|word| + 2] == StatusSeparator;
    }
    forall k | 0 <= k < |word| ensures !OccursAt(name, StatusSeparator, k) {
      assert name[k] == word[k];
      LowerStatusWordChar(word, k);
      assert k + 2 <= |name| ==> name[k..k + 2][0] == name[k];
    }
    var f := Find(name, StatusSeparator);
    assert f.Some? && f.value == |word|;
    assert Before(name, StatusSeparator) == word by {
      assert name[..|word|] == word;
    }
    assert name == word + StatusSeparator + After(name, StatusSeparator);
    assert After(name, StatusSeparator) == name[|word| + 2..];
    assert name[|word| + 2..] == title;
  }

  /** A word that lower-cases to a status word holds neither ':' nor ' '. */
  lemma {:induction false} LowerStatusWordChar(word: string, k: nat)
    requires IsStatusWord(Lower(word)) && k < |word|
    ensures word[k] != ':' && word[k] != ' '
  {
    assert Lower(word)[k] == LowerChar(word[k]);
  }

  /** `_guess_service_from_monitor(name)`: the stripped text before the first em dash, else
      before the first " - "; nothing when there is no separator or the guess is empty. */
  function GuessServiceFromMonitor(name: string): (r: Option<string>)
    ensures r.Some? ==> r.value != "" && !IsSpace(r.value[0]) && !IsSpace(r.value[|r.value| - 1])
    ensures r.Some? ==> Contains(name, "—") || Contains(name, " - ")
    ensures Contains(name, "—") ==> r == NonEmpty(Strip(Before(name, "—")))
    ensures !Contains(name, "—") && Contains(name, " - ") ==> r == NonEmpty(Strip(Before(name, " - ")))
  {
    if Contains(name, "—") then NonEmpty(Strip(Before(name, "—")))
    else if Contains(name, " - ") then NonEmpty(Strip(Before(name, " - ")))
    else None
  }

  function NonEmpty(s: string): Option<string> {
    if s == "" then None else Some(s)
  }

  /** A monitor titled `service — detail` guesses the stripped service. */
  lemma {:induction false} GuessServiceOfDashTitle(service: string, detail: string)
    requires '—' !in service
    ensures GuessServiceFromMonitor(service + "—" + detail) == NonEmpty(Strip(service))
  {
    CharNotInside(service, '—', detail);
    BeforeJoined(service, "—", detail);
  }

  /** Before `service` ends, the title has `" - "` only where `service + " -"` has it. */
  lemma {:induction false} HyphenNotBefore(service: string, detail: string, k: nat)
    requires !Contains(service + " -", " - ") && k < |service|
    ensures !OccursAt(service + " - " + detail, " - ", k)
  {
    assert !OccursAt(service + " -", " - ", k);
    assert (service + " -")[k..k + 3] == (service + " - " + detail)[k..k + 3];
  }

  /** A monitor titled `service - detail`, with no em dash, guesses the stripped service
      when " - " first occurs after it. */
  lemma {:induction false} GuessServiceOfHyphenTitle(service: string, detail: string)
    requires '—' !in service + detail && !Contains(service + " -", " - ")
    ensures GuessServiceFromMonitor(service + " - " + detail) == NonEmpty(Strip(service))
  {
    var name := service + " - " + detail;
    forall k | 0 <= k < |service| ensures !OccursAt(name, " - ", k) {
      HyphenNotBefore(service, detail, k);
    }
    BeforeJoined(service, " - ", detail);
    assert forall k :: 0 <= k < |name| ==> name[k] != '—' by {
      forall k | 0 <= k < |name| ensures name[k] != '—' {
        if k < |service| {
          assert name[k] == (service + detail)[k];
        } else if k >= |service| + 3 {
          assert name[k] == (service + detail)[k - 3];
        }
      }
    }
    ContainsChar(name, '—');
  }

  /** `_normalize_service_name(service)`: drops a status prefix, surrounding whitespace and
      everything from the first em dash on. */
  function NormalizeServiceName(service: string): (r: string)
    ensures !Contains(r, "—")
    ensures r != "" ==> !IsSpace(r[0]) && !IsSpace(r[|r| - 1])
  {
    var cleaned := Strip(NormalizeMonitorName(service));
    if Contains(cleaned, "—") then
      var r := Strip(Before(cleaned, "—"));
      BeforeFirstHasNoSeparator(cleaned, "—");
      StripKeepsAbsence(Before(cleaned, "—"), "—");
      r
    else cleaned
  }

  /** A status prefix, surrounding whitespace and all from the first em dash on are dropped:
      what is left is the stripped service. */
  lemma {:induction false} NormalizeServiceOfTitle(word: string, service: string, detail: string)
    requires IsStatusWord(Lower(word)) && '—' !in service
    ensures NormalizeServiceName(word + StatusSeparator + service + "—" + detail) == Strip(service)
    ensures NormalizeServiceName(word + StatusSeparator + service) == Strip(service)
  {
    NormalizeServiceOfDashTitle(word, service, detail);
    NormalizeServiceOfPlainTitle(word, service);
  }

  /** Without a status prefix, `service—detail` and `service` both normalise to the
      stripped service. */
  lemma {:induction false} NormalizeServiceOfName(service: string, detail: string)
    requires '—' !in service
    requires AlertStatus(service + "—" + detail).0.None? && AlertStatus(service).0.None?
    ensures NormalizeServiceName(service + "—" + detail) == Strip(service)
    ensures NormalizeServiceName(service) == Strip(service)
  {
    NormalizeIsStatusRest(service + "—" + detail);
    NormalizeDashTitle(service, detail);
    NormalizeIsStatusRest(service);
    NormalizePlain(service);
  }

  lemma {:induction false} NormalizeServiceOfDashTitle(word: string, service: string, detail: string)
    requires IsStatusWord(Lower(word)) && '—' !in service
    ensures NormalizeServiceName(word + StatusSeparator + service + "—" + detail) == Strip(service)
  {
    var title := service + "—" + detail;
    TitleJoin(word, service, detail);
    NormalizeOfStatusTitle(word, title);
    NormalizeDashTitle(service, detail);
  }

  lemma {:induction false} TitleJoin(word: string, service: string, detail: string)
    ensures word + StatusSeparator + service + "—" + detail == word + StatusSeparator + (service + "—" + detail)
  {
  }

  lemma {:induction false} NormalizeServiceOfPlainTitle(word: string, service: string)
    requires IsStatusWord(Lower(word)) && '—' !in service
    ensures NormalizeServiceName(word + StatusSeparator + service) == Strip(service)
  {
    NormalizeOfStatusTitle(word, service);
    NormalizePlain(service);
  }

  /** Behind a status prefix, a title is stripped and cut at its first em dash. */
  lemma {:induction false} NormalizeOfStatusTitle(word: string, title: string)
    requires IsStatusWord(Lower(word))
    ensures var cleaned := Strip(title);
      NormalizeServiceName(word + StatusSeparator + title)
        == if Contains(cleaned, "—") then Strip(Before(cleaned, "—")) else cleaned
  {
    AlertStatusOfPrefixed(word, title);
    NormalizeIsStatusRest(word + StatusSeparator + title);
  }

  /** Stripping and cutting at the em dash leave the stripped text before the dash. */
  lemma {:induction false} NormalizeDashTitle(service: string, detail: string)
    requires '—' !in service
    ensures var cleaned := Strip(service + "—" + detail);
      Contains(cleaned, "—") && Strip(Before(cleaned, "—")) == Strip(service)
  {
    var left, right := StripLeft(service), StripRight(detail);
    StripDashJoin(service, detail);
    assert '—' !in left by {
      assert forall k :: 0 <= k < |left| ==> left[k] == service[|service| - |left| + k];
    }
    CharNotInside(left, '—', right);
    assert [ '—' ] == "—";
    BeforeJoined(left, "—", right);
    StripLeftIdempotent(service);
  }

  /** Stripping a text joined at an em dash strips its two ends only. */
  lemma {:induction false} StripDashJoin(service: string, detail: string)
    ensures Strip(service + "—" + detail) == StripLeft(service) + "—" + StripRight(detail)
  {
    StripLeftDash(service, detail);
    StripRightDash(StripLeft(service), detail);
  }

  lemma {:induction false} StripLeftDash(service: string, detail: string)
    ensures StripLeft(service + "—" + detail) == StripLeft(service) + "—" + detail
  {
    var tail := "—" + detail;
    assert tail[0] == '—';
    StripLeftAppend(service, tail);
    Regroup(service, "—", detail);
    Regroup(StripLeft(service), "—", detail);
  }

  lemma {:induction false} StripRightDash(head: string, detail: string)
    ensures StripRight(head + "—" + detail) == head + "—" + StripRight(detail)
  {
    var h := head + "—";
    assert h[|h| - 1] == '—';
    StripRightPrepend(h, detail);
  }

  lemma {:induction false} Regroup(a: string, b: string, c: string)
    ensures a + b + c == a + (b + c)
  {
  }

  /** A text with no em dash normalises by stripping. */
  lemma {:induction false} NormalizePlain(service: string)
    requires '—' !in service
    ensures !Contains(Strip(service), "—")
  {
    ContainsChar(service, '—');
    StripKeepsAbsence(service, "—");
  }

  /** The text before the first one-character separator holds no separator. */
  lemma {:induction false} BeforeFirstHasNoSeparator(s: string, sep: string)
    requires Contains(s, sep) && |sep| == 1
    ensures !Contains(Before(s, sep), sep)
  {
    PrefixOccurs(s, Find(s, sep).value, sep);
  }

  lemma {:induction false} PrefixOccurs(s: string, n: nat, sep: string)
    requires n <= |s|
    ensures forall j :: OccursAt(s[..n], sep, j) ==> OccursAt(s, sep, j) && j + |sep| <= n
  {
    forall j | OccursAt(s[..n], sep, j) ensures OccursAt(s, sep, j) && j + |sep| <= n {
      assert s[..n][j..j + |sep|] == s[j..j + |sep|];
    }
  }

  /** Stripping cannot create a separator. */
  lemma {:induction false} StripKeepsAbsence(s: string, sep: string)
    ensures !Contains(s, sep) ==> !Contains(Strip(s), sep)
  {
    var i, j :| 0 <= i <= j <= |s| && Strip(s) == s[i..j];
    SliceOccurs(s, i, j, sep);
  }

  lemma {:induction false} SliceOccurs(s: string, i: nat, j: nat, sep: string)
    requires i <= j <= |s|
    ensures forall k :: OccursAt(s[i..j], sep, k) ==> OccursAt(s, sep, i + k)
  {
    forall k | OccursAt(s[i..j], sep, k) ensures OccursAt(s, sep, i + k) {
      var a, b := s[i..j][k..k + |sep|], s[i + k..i + k + |sep|];
      assert |a| == |b| && forall t :: 0 <= t < |a| ==> a[t] == b[t];
    }
  }

  // ----- enrichment query responses -----

  /** `row[name] = value` for a field name: an unhashable name raises; names that are not
      strings cannot be read back by the string lookups downstream and are dropped. */
  function Store(row: Dict, name: Json, v: Json): (r: Py<Dict>)
    ensures r.Raises? <==> !Hashable(name)
    ensures name.JStr? ==> r == Ok(Put(row, name.s, v))
  {
    if !Hashable(name) then Raises(TypeError)
    else if name.JStr? then Ok(Put(row, name.s, v))
    else Ok(row)
  }

  /** One step of the inner loop of `_rows_from_tabular`: column `c` for row `r`. */
  function Cell(row: Dict, name: Json, columns: Json, c: nat, r: nat): Py<Dict> {
    var n :- Len(columns);
    if c >= n then Ok(row)
    else
      var column :- Index(columns, c);
      var m :- Len(column);
      if r >= m || !Truthy(name) then Ok(row)
      else
        var v :- Index(column, r);
        Store(row, name, v)
  }

  /** A field whose name is falsy reads no cell: the row is unchanged whenever the column's
      length can be read, even where indexing the column would raise. */
  lemma {:induction false} UnnamedFieldSkipped(row: Dict, name: Json, cols: seq<Json>, c: nat, r: nat)
    requires !Truthy(name)
    ensures Cell(row, name, JList(cols), c, r).Ok? <==> c >= |cols| || Len(cols[c]).Ok?
    ensures Cell(row, name, JList(cols), c, r).Ok? ==> Cell(row, name, JList(cols), c, r).value == row
  {
  }

  /** `{"fields": [{}], "columns": [{"a": 1}]}`: the unnamed field skips a mapping column
      that `column[0]` would fail on. */
  lemma {:induction false} UnnamedFieldOverMapping()
    ensures Cell([], JNull, JList([JObj([("a", JInt(1))])]), 0, 0) == Ok([])
  {
    UnnamedFieldSkipped([], JNull, [JObj([("a", JInt(1))])], 0, 0);
  }

  /** Row `r` after the first `c` fields. */
  function RowPrefix(fields: seq<Json>, columns: Json, r: nat, c: nat): Py<Dict>
    requires c <= |fields|
  {
    if c == 0 then Ok([])
    else
      var row :- RowPrefix(fields, columns, r, c - 1);
      Cell(row, fields[c - 1], columns, c - 1, r)
  }

  /** The first `n` rows. */
  function RowsPrefix(fields: seq<Json>, columns: Json, n: nat): Py<seq<Dict>> {
    if n == 0 then Ok([])
    else
      var rows :- RowsPrefix(fields, columns, n - 1);
      var row :- RowPrefix(fields, columns, n - 1, |fields|);
      Ok(rows + [row])
  }

  /** `[field.get("name") for field in fields]`: every field must be a dict. */
  function FieldNames(items: seq<Json>): (r: Py<seq<Json>>)
    ensures r.Ok? ==> |r.value| == |items|
    ensures r.Ok? <==> forall k :: 0 <= k < |items| ==> items[k].JObj?
    ensures r.Ok? ==> forall k :: 0 <= k < |items| ==> r.value[k] == At(items[k].entries, "name")
  {
    if items == [] then Ok([])
    else
      var init := items[..|items| - 1];
      var last := items[|items| - 1];
      assert forall k :: 0 <= k < |init| ==> items[k] == init[k];
      match FieldNames(init)
      case Raises(e) => Raises(e)
      case Ok(names) => if last.JObj? then Ok(names + [At(last.entries, "name")]) else Raises(AttributeError)
  }

  /** `_rows_from_tabular(payload)`: the first table's columns turned into one dict per row. */
  function TabularRows(payload: Dict): (r: Py<seq<Dict>>)
    ensures !Truthy(At(payload, "tables")) ==> r == Ok([])
  {
    var tables := At(payload, "tables");
    if !Truthy(tables) then Ok([])
    else
      var table :- Index(tables, 0);
      var fieldSource :- MethodGet(table, "fields", JList([]));
      var fieldItems :- Iterate(fieldSource);
      var fields :- FieldNames(fieldItems);
      var columns :- MethodGet(table, "columns", JList([]));
      if fields == [] || !Truthy(columns) then Ok([])
      else
        var first :- Index(columns, 0);
        var rowCount :- Len(first);
        RowsPrefix(fields, columns, rowCount)
  }

  /** The nested index loops of `_rows_from_tabular`, once the fields and columns are read. */
  method BuildRows(fields: seq<Json>, columns: Json, rowCount: nat) returns (r: Py<seq<Dict>>)
    ensures r == RowsPrefix(fields, columns, rowCount)
  {
    var rows: seq<Dict> := [];
    var rowIndex := 0;
    while rowIndex < rowCount
      invariant 0 <= rowIndex <= rowCount
      invariant RowsPrefix(fields, columns, rowIndex) == Ok(rows)
    {
      var row: Dict := [];
      var colIndex := 0;
      while colIndex < |fields|
        invariant 0 <= colIndex <= |fields|
        invariant RowPrefix(fields, columns, rowIndex, colIndex) == Ok(row)
      {
        var fieldName := fields[colIndex];
        var n := Len(columns);
        if n.Raises? {
          RowRaisesAt(fields, columns, rowIndex, colIndex, |fields|);
          RowsRaiseAt(fields, columns, rowIndex, rowCount);
          return Raises(n.error);
        }
        if colIndex < n.value {
          var column := Index(columns, colIndex);
          if column.Raises? {
            RowRaisesAt(fields, columns, rowIndex, colIndex, |fields|);
            RowsRaiseAt(fields, columns, rowIndex, rowCount);
            return Raises(column.error);
          }
          var m := Len(column.value);
          if m.Raises? {
            RowRaisesAt(fields, columns, rowIndex, colIndex, |fields|);
            RowsRaiseAt(fields, columns, rowIndex, rowCount);
            return Raises(m.error);
          }
          if rowIndex < m.value && Truthy(fieldName) {
            var v := Index(column.value, rowIndex);
            if v.Raises? {
              RowRaisesAt(fields, columns, rowIndex, colIndex, |fields|);
              RowsRaiseAt(fields, columns, rowIndex, rowCount);
              return Raises(v.error);
            }
            var stored := Store(row, fieldName, v.value);
            if stored.Raises? {
              RowRaisesAt(fields, columns, rowIndex, colIndex, |fields|);
              RowsRaiseAt(fields, columns, rowIndex, rowCount);
              return Raises(stored.error);
            }
            row := stored.value;
          }
        }
        colIndex := colIndex + 1;
      }
      rows := rows + [row];
      rowIndex := rowIndex + 1;
    }
    return Ok(rows);
  }

  /** Once a cell raises, the rest of the row raises the same error. */
  lemma {:induction false} RowRaisesAt(fields: seq<Json>, columns: Json, r: nat, c: nat, c': nat)
    requires c < c' <= |fields|
    requires RowPrefix(fields, columns, r, c).Ok?
    requires Cell(RowPrefix(fields, columns, r, c).value, fields[c], columns, c, r).Raises?
    ensures RowPrefix(fields, columns, r, c') == Cell(RowPrefix(fields, columns, r, c).value, fields[c], columns, c, r)
    decreases c'
  {
    if c' > c + 1 {
      RowRaisesAt(fields, columns, r, c, c' - 1);
    }
  }

  /** Once a row raises, the whole table raises the same error. */
  lemma {:induction false} RowsRaiseAt(fields: seq<Json>, columns: Json, r: nat, n: nat)
    requires r < n
    requires RowsPrefix(fields, columns, r).Ok?
    requires RowPrefix(fields, columns, r, |fields|).Raises?
    ensures RowsPrefix(fields, columns, n).Raises?
    ensures RowsPrefix(fields, columns, n).error == RowPrefix(fields, columns, r, |fields|).error
    decreases n
  {
    if n > r + 1 {
      RowsRaiseAt(fields, columns, r, n - 1);
    }
  }

  /** A field list of plain names. */
  function NameFields(names: seq<string>): (r: seq<Json>)
    ensures |r| == |names| && forall k :: 0 <= k < |names| ==> r[k] == JStr(names[k])
  {
    seq(|names|, k requires 0 <= k < |names| => JStr(names[k]))
  }

  /** A table with one list column per distinct non-empty field name, each at least `n` long. */
  predicate RegularTable(names: seq<string>, cols: seq<Json>, n: nat) {
    Distinct(names) && ColumnsCover(names, cols, n)
  }

  /** One list column, at least `n` long, per non-empty field name. */
  predicate ColumnsCover(names: seq<string>, cols: seq<Json>, n: nat) {
    |cols| == |names|
    && (forall c :: 0 <= c < |names| ==> names[c] != "")
    && (forall c :: 0 <= c < |cols| ==> cols[c].JList? && |cols[c].items| >= n)
  }

  /** The `r`-th entry of a list column, `null` past its end. */
  function Entry(col: Json, r: nat): Json {
    if col.JList? && r < |col.items| then col.items[r] else JNull
  }

  /** The row that the first `c` columns store at index `r`: each field name in turn
      set to its column's `r`-th entry. */
  function ColumnsRow(names: seq<string>, cols: seq<Json>, r: nat, c: nat): Dict
    requires c <= |names| && c <= |cols|
  {
    if c == 0 then [] else Put(ColumnsRow(names, cols, r, c - 1), names[c - 1], Entry(cols[c - 1], r))
  }

  /** The rows the first `0`, `1`, ..., `c` columns store at index `r`. */
  function ColumnsPrefixes(names: seq<string>, cols: seq<Json>, r: nat, c: nat): (rows: seq<Dict>)
    requires c <= |names| && c <= |cols|
    ensures |rows| == c + 1 && forall k :: 0 <= k <= c ==> rows[k] == ColumnsRow(names, cols, r, k)
  {
    seq(c + 1, k requires 0 <= k <= c => ColumnsRow(names, cols, r, k))
  }

  /** Row `r` after the first `c` fields is `rows[c]` when each cell takes `rows[k]` to `rows[k + 1]`. */
  lemma {:induction false} RowPrefixOf(fields: seq<Json>, columns: Json, r: nat, c: nat, rows: seq<Dict>)
    requires c <= |fields| && c < |rows| && rows[0] == []
    requires forall k :: 0 <= k < c ==> Cell(rows[k], fields[k], columns, k, r) == Ok(rows[k + 1])
    ensures RowPrefix(fields, columns, r, c) == Ok(rows[c])
  {
    if c > 0 {
      RowPrefixOf(fields, columns, r, c - 1, rows);
    }
  }

  /** Row `r` of a regular table is built without raising, and is the row the columns store. */
  lemma {:induction false} RegularRowOk(names: seq<string>, cols: seq<Json>, n: nat, r: nat)
    requires ColumnsCover(names, cols, n) && r < n
    ensures RowPrefix(NameFields(names), JList(cols), r, |names|) == Ok(ColumnsRow(names, cols, r, |names|))
  {
    var c := |names|;
    var fields := NameFields(names);
    var rows := ColumnsPrefixes(names, cols, r, c);
    forall k | 0 <= k < c ensures Cell(rows[k], fields[k], JList(cols), k, r) == Ok(rows[k + 1]) {
      ColumnsCell(names, cols, n, r, k);
    }
    RowPrefixOf(fields, JList(cols), r, c, rows);
  }

  lemma {:induction false} ColumnsCell(names: seq<string>, cols: seq<Json>, n: nat, r: nat, k: nat)
    requires ColumnsCover(names, cols, n) && r < n && k < |names|
    ensures Cell(ColumnsRow(names, cols, r, k), JStr(names[k]), JList(cols), k, r) == Ok(ColumnsRow(names, cols, r, k + 1))
  {
    CoverAt(names, cols, n, k);
    RegularCell(ColumnsRow(names, cols, r, k), names[k], cols, k, r);
  }

  lemma {:induction false} CoverAt(names: seq<string>, cols: seq<Json>, n: nat, k: nat)
    requires ColumnsCover(names, cols, n) && k < |names|
    ensures names[k] != "" && k < |cols| && cols[k].JList? && |cols[k].items| >= n
  {
  }

  lemma {:induction false} RowPrefixStep(fields: seq<Json>, columns: Json, r: nat, c: nat, row: Dict)
    requires 0 < c <= |fields| && RowPrefix(fields, columns, r, c - 1) == Ok(row)
    ensures RowPrefix(fields, columns, r, c) == Cell(row, fields[c - 1], columns, c - 1, r)
  {
  }

  /** ... it maps field name `t` to the `r`-th entry of column `t` once `t` is read ... */
  lemma {:induction false} ColumnsRowGet(names: seq<string>, cols: seq<Json>, r: nat, t: nat)
    requires Distinct(names) && t < |names| <= |cols|
    ensures Get(ColumnsRow(names, cols, r, |names|), names[t]) == Some(Entry(cols[t], r))
  {
    DistinctAfter(names, t);
    ColumnsRowSkip(names, cols, r, t + 1, |names|, names[t]);
    ColumnsRowRead(names, cols, r, t);
  }

  lemma {:induction false} ColumnsRowRead(names: seq<string>, cols: seq<Json>, r: nat, t: nat)
    requires t < |names| && t < |cols|
    ensures Get(ColumnsRow(names, cols, r, t + 1), names[t]) == Some(Entry(cols[t], r))
  {
  }

  lemma {:induction false} DistinctAfter(names: seq<string>, t: nat)
    requires Distinct(names) && t < |names|
    ensures forall k :: t + 1 <= k < |names| ==> names[k] != names[t]
  {
    forall k | t + 1 <= k < |names| ensures names[k] != names[t] {
      DistinctAt(names, t, k);
    }
  }

  /** ... and holds no key that is not among the first `c` field names. */
  lemma {:induction false} ColumnsRowAbsent(names: seq<string>, cols: seq<Json>, r: nat, key: string)
    requires |names| <= |cols| && key !in names
    ensures Get(ColumnsRow(names, cols, r, |names|), key) == None
  {
    ColumnsRowSkip(names, cols, r, 0, |names|, key);
  }

  /** Fields `c0` to `c - 1` leave a key none of them names as it was. */
  lemma {:induction false} ColumnsRowSkip(names: seq<string>, cols: seq<Json>, r: nat, c0: nat, c: nat, key: string)
    requires c0 <= c <= |names| && c <= |cols|
    requires forall k :: c0 <= k < c ==> names[k] != key
    ensures Get(ColumnsRow(names, cols, r, c), key) == Get(ColumnsRow(names, cols, r, c0), key)
    decreases c
  {
    if c > c0 {
      ColumnsRowSkip(names, cols, r, c0, c - 1, key);
      ColumnsRowOther(names, cols, r, c, key);
    }
  }

  /** Reading field `c - 1` leaves every other key as it was. */
  lemma {:induction false} ColumnsRowOther(names: seq<string>, cols: seq<Json>, r: nat, c: nat, key: string)
    requires 0 < c <= |names| && c <= |cols| && key != names[c - 1]
    ensures Get(ColumnsRow(names, cols, r, c), key) == Get(ColumnsRow(names, cols, r, c - 1), key)
  {
    PutOther(ColumnsRow(names, cols, r, c - 1), names[c - 1], Entry(cols[c - 1], r), key);
  }

  lemma {:induction false} DistinctAt(names: seq<string>, i: nat, j: nat)
    requires Distinct(names) && i < j < |names|
    ensures names[i] != names[j]
  {
  }

  lemma {:induction false} PutOther(row: Dict, key: string, v: Json, other: string)
    requires key != other
    ensures Get(Put(row, key, v), other) == Get(row, other)
  {
  }

  lemma {:induction false} RegularCell(row: Dict, name: string, cols: seq<Json>, c: nat, r: nat)
    requires c < |cols| && cols[c].JList? && r < |cols[c].items| && name != ""
    ensures Cell(row, JStr(name), JList(cols), c, r) == Ok(Put(row, name, Entry(cols[c], r)))
  {
    assert Index(JList(cols), c) == Ok(cols[c]);
    assert Index(cols[c], r) == Ok(cols[c].items[r]);
  }

  /** The rows the columns store at indices `0` to `m - 1`. */
  function ColumnsRows(names: seq<string>, cols: seq<Json>, m: nat): (rows: seq<Dict>)
    requires |names| <= |cols|
    ensures |rows| == m && forall r :: 0 <= r < m ==> rows[r] == ColumnsRow(names, cols, r, |names|)
  {
    seq(m, r requires 0 <= r < m => ColumnsRow(names, cols, r, |names|))
  }

  /** The first `m` rows are `rows[..m]` when each of them is built as `rows` says. */
  lemma {:induction false} RowsPrefixOf(fields: seq<Json>, columns: Json, m: nat, rows: seq<Dict>)
    requires m <= |rows|
    requires forall r :: 0 <= r < m ==> RowPrefix(fields, columns, r, |fields|) == Ok(rows[r])
    ensures RowsPrefix(fields, columns, m) == Ok(rows[..m])
  {
    if m > 0 {
      RowsPrefixOf(fields, columns, m - 1, rows);
      assert rows[..m] == rows[..m - 1] + [rows[m - 1]];
    }
  }

  lemma {:induction false} RegularRows(names: seq<string>, cols: seq<Json>, n: nat)
    requires ColumnsCover(names, cols, n)
    ensures RowsPrefix(NameFields(names), JList(cols), n) == Ok(ColumnsRows(names, cols, n))
  {
    var rows := ColumnsRows(names, cols, n);
    forall r | 0 <= r < n ensures RowPrefix(NameFields(names), JList(cols), r, |names|) == Ok(rows[r]) {
      RegularRowOk(names, cols, n, r);
    }
    RowsPrefixOf(NameFields(names), JList(cols), n, rows);
    assert rows[..n] == rows;
  }

  /** Transposition: on a regular table, row `r` maps the `c`-th field name to the `r`-th
      entry of the `c`-th column and holds no other key. */
  lemma {:induction false} RegularTableCells(names: seq<string>, cols: seq<Json>, n: nat, r: nat, c: nat, key: string)
    requires RegularTable(names, cols, n) && r < n && c < |names|
    ensures RowsPrefix(NameFields(names), JList(cols), n).Ok?
    ensures |RowsPrefix(NameFields(names), JList(cols), n).value| == n
    ensures Get(RowsPrefix(NameFields(names), JList(cols), n).value[r], names[c]) == Some(cols[c].items[r])
    ensures key !in names ==> Get(RowsPrefix(NameFields(names), JList(cols), n).value[r], key) == None
  {
    RegularRows(names, cols, n);
    ColumnsRowGet(names, cols, r, c);
    if key !in names {
      ColumnsRowAbsent(names, cols, r, key);
    }
  }

  /** A field description of the query API: a mapping holding the field's name. */
  function FieldDescriptions(names: seq<string>): (r: seq<Json>)
    ensures |r| == |names| && forall k :: 0 <= k < |names| ==> r[k] == JObj([("name", JStr(names[k]))])
  {
    seq(|names|, k requires 0 <= k < |names| => JObj([("name", JStr(names[k]))]))
  }

  /** A table of the query API: its field descriptions and its columns. */
  function TableOf(names: seq<string>, cols: seq<Json>): Json {
    JObj([("fields", JList(FieldDescriptions(names))), ("columns", JList(cols))])
  }

  /** `_rows_from_tabular` on a payload whose first table is regular: one row per entry of
      the first column, mapping each field name to that row's entry of its column and
      holding no other key. */
  lemma {:induction false} TabularRowsOfTable(payload: Dict, names: seq<string>, cols: seq<Json>, r: nat, c: nat, key: string)
    requires At(payload, "tables").JList? && At(payload, "tables").items != []
    requires At(payload, "tables").items[0] == TableOf(names, cols)
    requires names != [] && |cols| == |names| && cols[0].JList? && RegularTable(names, cols, |cols[0].items|)
    requires r < |cols[0].items| && c < |names|
    ensures TabularRows(payload).Ok? && |TabularRows(payload).value| == |cols[0].items|
    ensures Get(TabularRows(payload).value[r], names[c]) == Some(cols[c].items[r])
    ensures key !in names ==> Get(TabularRows(payload).value[r], key) == None
  {
    var n := |cols[0].items|;
    var table := TableOf(names, cols);
    var fs := FieldDescriptions(names);
    assert Index(At(payload, "tables"), 0) == Ok(table);
    assert MethodGet(table, "fields", JList([])) == Ok(JList(fs));
    assert Get(table.entries, "columns") == Some(JList(cols)) by {
      assert table.entries[1..] == [("columns", JList(cols))];
    }
    assert FieldNames(fs) == Ok(NameFields(names)) by {
      assert forall k :: 0 <= k < |fs| ==> fs[k].JObj?;
      var got := FieldNames(fs).value;
      forall k | 0 <= k < |fs| ensures got[k] == NameFields(names)[k] {
        assert Get(fs[k].entries, "name") == Some(JStr(names[k]));
      }
      assert got == NameFields(names);
    }
    assert Index(JList(cols), 0) == Ok(cols[0]);
    assert TabularRows(payload) == RowsPrefix(NameFields(names), JList(cols), n);
    RegularTableCells(names, cols, n, r, c, key);
  }

  /** `_rows_from_query_payload(payload)`: tabular rows when there are any, otherwise the
      dict `data` of each dict match, otherwise nothing. */
  function QueryRows(payload: Dict): (r: Py<seq<Dict>>)
    ensures r.Raises? <==> TabularRows(payload).Raises?
    ensures r.Raises? ==> r.error == TabularRows(payload).error
    ensures TabularRows(payload).Ok? && TabularRows(payload).value != [] ==> r == TabularRows(payload)
    ensures TabularRows(payload) == Ok([]) ==> r.Ok? && forall d :: d in r.value <==>
      At(payload, "matches").JList? && exists m :: m in At(payload, "matches").items && HasData(m) && d == At(m.entries, "data").entries
  {
    var rows :- TabularRows(payload);
    if rows != [] then Ok(rows)
    else
      var matches := At(payload, "matches");
      if matches.JList? then Ok(MatchData(matches.items)) else Ok([])
  }

  /** A match whose `data` is a mapping. */
  predicate HasData(m: Json) {
    m.JObj? && At(m.entries, "data").JObj?
  }

  /** `[m["data"] for m in matches if isinstance(m, dict) and isinstance(m.get("data"), dict)]`. */
  function MatchData(matches: seq<Json>): (r: seq<Dict>)
    ensures |r| <= |matches|
    ensures forall d :: d in r <==> exists m :: m in matches && HasData(m) && d == At(m.entries, "data").entries
  {
    if matches == [] then []
    else
      var init, m := matches[..|matches| - 1], matches[|matches| - 1];
      assert matches == init + [m];
      var rest := MatchData(init);
      if HasData(m) then rest + [At(m.entries, "data").entries] else rest
  }

  /** Keeping the data of a concatenation keeps the data of each part, in order. */
  lemma {:induction false} MatchDataAppend(a: seq<Json>, b: seq<Json>)
    ensures MatchData(a + b) == MatchData(a) + MatchData(b)
    decreases |b|
  {
    if b == [] {
      assert a + b == a;
    } else {
      var b' := b[..|b| - 1];
      assert a + b == (a + b') + [b[|b| - 1]];
      assert (a + b)[..|a + b| - 1] == a + b';
      MatchDataAppend(a, b');
    }
  }

  /** One match contributes its `data` exactly when both are dicts. */
  lemma {:induction false} MatchDataOne(m: Json)
    ensures MatchData([m]) == if HasData(m) then [At(m.entries, "data").entries] else []
  {
    assert [m][..0] == [];
  }
}
