/** ContextBuilder: turns match records and enrichment rows into the alert context
    (hosts, services, messages, statuses, user agents, paths) and summarises it: the most
    common value, message samples, the host/service display, and the configuration
    coercions (app.py, `_coerce_bool` to `_format_host_service`, `_extract_fields_from_rows`). */
module AlertContext {
  import opened PyJson
  import opened PyStr
  import opened SeqSets

  // ----- extracted fields -----

  /** What `_extract_match_fields` and `_extract_fields_from_rows` return. Hosts and
      services are Python sets, kept here as duplicate-free sequences. */
  datatype Fields = Fields(
    servers: seq<string>,
    services: seq<string>,
    messages: seq<string>,
    statuses: seq<string>,
    userAgents: seq<string>,
    paths: seq<string>)

  const NoFields: Fields := Fields([], [], [], [], [], [])

  // The alias chains, tried in order until one value is taken.
  const MessageKeys: seq<string> := ["message", "msg", "log", "_raw"]
  const StatusKeys: seq<string> := ["status", "status_code", "code"]
  const UserAgentKeys: seq<string> := ["user_agent", "userAgent", "ua"]
  const PathKeys: seq<string> := ["path", "url", "request_path", "requestPath"]

  /** Whether an alias value is taken: a status is any value but `None`, the other
      attributes need a truthy value. */
  predicate Takes(v: Json, anyValue: bool) {
    if anyValue then v != JNull else Truthy(v)
  }

  /** The position of the first alias in `keys` whose value is taken, `|keys|` if none is. */
  function PickIndex(row: Dict, keys: seq<string>, anyValue: bool): (k: nat)
    ensures k <= |keys|
    ensures k < |keys| ==> Takes(At(row, keys[k]), anyValue)
    ensures forall j :: 0 <= j < k ==> !Takes(At(row, keys[j]), anyValue)
  {
    if keys == [] then 0
    else if Takes(At(row, keys[0]), anyValue) then 0
    else
      var k := PickIndex(row, keys[1..], anyValue);
      assert forall j :: 1 <= j < |keys| ==> keys[j] == keys[1..][j - 1];
      1 + k
  }

  /** The text of the first alias in `keys` whose value is taken. */
  function Pick(row: Dict, keys: seq<string>, anyValue: bool): (r: Option<string>)
    ensures r.None? <==> forall k :: 0 <= k < |keys| ==> !Takes(At(row, keys[k]), anyValue)
    ensures r.Some? ==> r.value == Str(At(row, keys[PickIndex(row, keys, anyValue)]))
  {
    var k := PickIndex(row, keys, anyValue);
    if k < |keys| then Some(Str(At(row, keys[k]))) else None
  }

  /** The alias loop with `break`. */
  method PickLoop(row: Dict, keys: seq<string>, anyValue: bool) returns (r: Option<string>)
    ensures r == Pick(row, keys, anyValue)
  {
    r := None;
    var i := 0;
    while i < |keys|
      invariant 0 <= i <= |keys|
      invariant forall j :: 0 <= j < i ==> !Takes(At(row, keys[j]), anyValue)
    {
      var value := At(row, keys[i]);
      if Takes(value, anyValue) {
        assert PickIndex(row, keys, anyValue) == i;
        return Some(Str(value));
      }
      i := i + 1;
    }
  }

  /** `str(v)` of a truthy `host` or `service` value. */
  function TruthyText(row: Dict, key: string): Option<string> {
    var v := At(row, key);
    if Truthy(v) then Some(Str(v)) else None
  }

  function Items(o: Option<string>): seq<string> {
    match o
    case Some(x) => [x]
    case None => []
  }

  /** `s.add(x)` on a set kept as a sequence. */
  function AddTo(s: seq<string>, o: Option<string>): seq<string> {
    match o
    case Some(x) => if x in s then s else s + [x]
    case None => s
  }

  /** One iteration of the record loop. */
  function AddRow(f: Fields, row: Dict): Fields {
    Fields(
      AddTo(f.servers, TruthyText(row, "host")),
      AddTo(f.services, TruthyText(row, "service")),
      f.messages + Items(Pick(row, MessageKeys, false)),
      f.statuses + Items(Pick(row, StatusKeys, true)),
      f.userAgents + Items(Pick(row, UserAgentKeys, false)),
      f.paths + Items(Pick(row, PathKeys, false)))
  }

  /** The fields of a list of records. */
  function RowsFields(rows: seq<Dict>): Fields {
    if rows == [] then NoFields
    else AddRow(RowsFields(rows[..|rows| - 1]), rows[|rows| - 1])
  }

  /** The body of the record loop, with its four alias loops. */
  method AddRowFields(f: Fields, row: Dict) returns (g: Fields)
    ensures g == AddRow(f, row)
  {
    var servers, services := f.servers, f.services;
    var host := At(row, "host");
    if Truthy(host) && Str(host) !in servers {
      servers := servers + [Str(host)];
    }
    var service := At(row, "service");
    if Truthy(service) && Str(service) !in services {
      services := services + [Str(service)];
    }
    var message := PickLoop(row, MessageKeys, false);
    var status := PickLoop(row, StatusKeys, true);
    var userAgent := PickLoop(row, UserAgentKeys, false);
    var path := PickLoop(row, PathKeys, false);
    g := Fields(servers, services, f.messages + Items(message), f.statuses + Items(status),
                f.userAgents + Items(userAgent), f.paths + Items(path));
  }

  /** `_extract_fields_from_rows(rows)`. */
  method ExtractFieldsFromRows(rows: seq<Dict>) returns (f: Fields)
    ensures f == RowsFields(rows)
  {
    f := NoFields;
    var i := 0;
    while i < |rows|
      invariant 0 <= i <= |rows|
      invariant f == RowsFields(rows[..i])
    {
      assert rows[..i + 1][..i] == rows[..i];
      f := AddRowFields(f, rows[i]);
      i := i + 1;
    }
    assert rows[..i] == rows;
  }

  /** `match.get("data", match)` when that is a dict. */
  function Record(m: Dict): Option<Dict> {
    var data := GetOr(m, "data", JObj(m));
    if data.JObj? then Some(data.entries) else None
  }

  /** The records of a list of matches; matches whose `data` is not a dict are skipped. */
  function Records(matches: seq<Dict>): (r: seq<Dict>)
    ensures |r| <= |matches|
    ensures forall d :: d in r <==> exists m :: m in matches && Record(m) == Some(d)
  {
    if matches == [] then []
    else
      var init, m := matches[..|matches| - 1], matches[|matches| - 1];
      assert matches == init + [m];
      Records(init) + RecordItems(Record(m))
  }

  /** The records of a concatenation are the records of each part, in order. */
  lemma {:induction false} RecordsAppend(a: seq<Dict>, b: seq<Dict>)
    ensures Records(a + b) == Records(a) + Records(b)
    decreases |b|
  {
    if b == [] {
      assert a + b == a;
    } else {
      var b' := b[..|b| - 1];
      assert a + b == (a + b') + [b[|b| - 1]];
      assert (a + b)[..|a + b| - 1] == a + b';
      RecordsAppend(a, b');
    }
  }

  /** A match without `data` is its own record; one whose `data` is a dict has that record;
      any other `data` is skipped. */
  lemma {:induction false} RecordsOne(m: Dict)
    ensures !HasKey(m, "data") ==> Records([m]) == [m]
    ensures At(m, "data").JObj? ==> Records([m]) == [At(m, "data").entries]
    ensures HasKey(m, "data") && !At(m, "data").JObj? ==> Records([m]) == []
  {
    GetSpec(m, "data");
    assert [m][..0] == [];
  }

  function RecordItems(o: Option<Dict>): seq<Dict> {
    match o
    case Some(d) => [d]
    case None => []
  }

  /** `_extract_match_fields(matches)`. */
  method ExtractMatchFields(matches: seq<Dict>) returns (f: Fields)
    ensures f == RowsFields(Records(matches))
  {
    f := NoFields;
    var i := 0;
    while i < |matches|
      invariant 0 <= i <= |matches|
      invariant f == RowsFields(Records(matches[..i]))
    {
      RecordsFieldsStep(matches, i);
      var data := GetOr(matches[i], "data", JObj(matches[i]));
      if data.JObj? {
        f := AddRowFields(f, data.entries);
      }
      i := i + 1;
    }
    assert matches[..i] == matches;
  }

  lemma {:induction false} RecordsSnoc(matches: seq<Dict>, i: nat)
    requires i < |matches|
    ensures Records(matches[..i + 1]) == Records(matches[..i]) + RecordItems(Record(matches[i]))
  {
    assert matches[..i + 1][..i] == matches[..i];
  }

  /** One step of the record loop: a match with a `data` record adds its fields. */
  lemma {:induction false} RecordsFieldsStep(matches: seq<Dict>, i: nat)
    requires i < |matches|
    ensures var data := GetOr(matches[i], "data", JObj(matches[i]));
      data.JObj? ==> RowsFields(Records(matches[..i + 1])) == AddRow(RowsFields(Records(matches[..i])), data.entries)
    ensures var data := GetOr(matches[i], "data", JObj(matches[i]));
      !data.JObj? ==> RowsFields(Records(matches[..i + 1])) == RowsFields(Records(matches[..i]))
  {
    RecordsSnoc(matches, i);
    var data := GetOr(matches[i], "data", JObj(matches[i]));
    if data.JObj? {
      RowsFieldsSnoc(Records(matches[..i]), data.entries);
    } else {
      assert Records(matches[..i]) + [] == Records(matches[..i]);
    }
  }

  lemma {:induction false} RowsFieldsSnoc(rows: seq<Dict>, row: Dict)
    ensures RowsFields(rows + [row]) == AddRow(RowsFields(rows), row)
  {
    assert (rows + [row])[..|rows|] == rows;
  }

  // ----- what the fields mean -----

  /** The texts of the truthy values under `key`, record by record. */
  function Texts(rows: seq<Dict>, key: string): seq<string> {
    if rows == [] then []
    else Texts(rows[..|rows| - 1], key) + Items(TruthyText(rows[|rows| - 1], key))
  }

  /** The host and service sets hold each truthy host or service text once, in the order
      first seen. */
  lemma {:induction false} RowsFieldsSets(rows: seq<Dict>)
    ensures RowsFields(rows).servers == Dedup(Texts(rows, "host"))
    ensures RowsFields(rows).services == Dedup(Texts(rows, "service"))
  {
    if rows != [] {
      var init, row := rows[..|rows| - 1], rows[|rows| - 1];
      RowsFieldsSets(init);
      AddToDedup(Texts(init, "host"), TruthyText(row, "host"));
      AddToDedup(Texts(init, "service"), TruthyText(row, "service"));
    }
  }

  lemma {:induction false} AddToDedup(s: seq<string>, o: Option<string>)
    ensures AddTo(Dedup(s), o) == Dedup(s + Items(o))
  {
    if o.Some? {
      assert (s + [o.value])[..|s|] == s;
    } else {
      assert s + Items(o) == s;
    }
  }

  /** The attribute lists take at most one value per record. */
  lemma {:induction false} RowsFieldsLengths(rows: seq<Dict>)
    ensures |RowsFields(rows).messages| <= |rows| && |RowsFields(rows).statuses| <= |rows|
    ensures |RowsFields(rows).userAgents| <= |rows| && |RowsFields(rows).paths| <= |rows|
  {
    if rows != [] {
      RowsFieldsLengths(rows[..|rows| - 1]);
    }
  }

  /** `servers |= other_servers; messages.extend(other_messages); ...` */
  function Merge(f: Fields, g: Fields): Fields {
    Fields(Union(f.servers, g.servers), Union(f.services, g.services),
           f.messages + g.messages, f.statuses + g.statuses,
           f.userAgents + g.userAgents, f.paths + g.paths)
  }

  /** Merging the fields of two batches is extracting the fields of both batches at once. */
  lemma {:induction false} RowsFieldsAppend(a: seq<Dict>, b: seq<Dict>)
    ensures RowsFields(a + b) == Merge(RowsFields(a), RowsFields(b))
  {
    if b == [] {
      assert a + b == a;
      RowsFieldsSets(a);
      MergeNoFields(RowsFields(a), Texts(a, "host"), Texts(a, "service"));
    } else {
      var init, row := b[..|b| - 1], b[|b| - 1];
      assert (a + b)[..|a + b| - 1] == a + init;
      RowsFieldsAppend(a, init);
      MergeAddRow(RowsFields(a), RowsFields(init), row);
    }
  }

  lemma {:induction false} MergeNoFields(f: Fields, hosts: seq<string>, services: seq<string>)
    requires f.servers == Dedup(hosts) && f.services == Dedup(services)
    ensures Merge(f, NoFields) == f
  {
    DedupOfDistinct(f.servers);
    DedupOfDistinct(f.services);
    assert f.servers + [] == f.servers;
    assert f.services + [] == f.services;
    assert f.messages + [] == f.messages && f.statuses + [] == f.statuses;
    assert f.userAgents + [] == f.userAgents && f.paths + [] == f.paths;
  }

  lemma {:induction false} MergeAddRow(f: Fields, g: Fields, row: Dict)
    ensures AddRow(Merge(f, g), row) == Merge(f, AddRow(g, row))
  {
    MergeAddRowSets(f, g, row);
    MergeAddRowLists(f, g, row);
  }

  lemma {:induction false} MergeAddRowSets(f: Fields, g: Fields, row: Dict)
    ensures AddRow(Merge(f, g), row).servers == Merge(f, AddRow(g, row)).servers
    ensures AddRow(Merge(f, g), row).services == Merge(f, AddRow(g, row)).services
  {
    UnionAddTo(f.servers, g.servers, TruthyText(row, "host"));
    UnionAddTo(f.services, g.services, TruthyText(row, "service"));
  }

  lemma {:induction false} MergeAddRowLists(f: Fields, g: Fields, row: Dict)
    ensures AddRow(Merge(f, g), row).messages == Merge(f, AddRow(g, row)).messages
    ensures AddRow(Merge(f, g), row).statuses == Merge(f, AddRow(g, row)).statuses
    ensures AddRow(Merge(f, g), row).userAgents == Merge(f, AddRow(g, row)).userAgents
    ensures AddRow(Merge(f, g), row).paths == Merge(f, AddRow(g, row)).paths
  {
    var m, st, ua, pa := Items(Pick(row, MessageKeys, false)), Items(Pick(row, StatusKeys, true)),
                         Items(Pick(row, UserAgentKeys, false)), Items(Pick(row, PathKeys, false));
    assert (f.messages + g.messages) + m == f.messages + (g.messages + m);
    assert (f.statuses + g.statuses) + st == f.statuses + (g.statuses + st);
    assert (f.userAgents + g.userAgents) + ua == f.userAgents + (g.userAgents + ua);
    assert (f.paths + g.paths) + pa == f.paths + (g.paths + pa);
  }

  lemma {:induction false} UnionAddTo(a: seq<string>, b: seq<string>, o: Option<string>)
    ensures AddTo(Union(a, b), o) == Union(a, AddTo(b, o))
  {
    if o.Some? {
      var x := o.value;
      if x in b {
        assert x in a + b;
      } else {
        DedupDedupRight(a, b + [x]);
        DedupDedupRight(a, b);
        assert (a + (b + [x]))[..|a + b|] == a + b;
        assert a + (b + [x]) == (a + b) + [x];
      }
    }
  }

  // ----- the most common value -----

  /** The position of the key of greatest count, keeping the earlier key on ties, as
      `max` does. */
  function MaxIndex(keys: seq<string>, values: seq<string>): (m: nat)
    requires keys != []
    ensures m < |keys|
    ensures forall j :: 0 <= j < |keys| ==> Count(values, keys[j]) <= Count(values, keys[m])
    ensures forall j :: 0 <= j < m ==> Count(values, keys[j]) < Count(values, keys[m])
  {
    if |keys| == 1 then 0
    else
      var init := keys[..|keys| - 1];
      var m := MaxIndex(init, values);
      assert keys[m] == init[m];
      assert forall j :: 0 <= j < |init| ==> keys[j] == init[j];
      if Count(values, keys[|keys| - 1]) > Count(values, keys[m]) then |keys| - 1 else m
  }

  /** `_most_common(values)`. */
  function MostCommon(values: seq<string>): (r: Option<string>)
    ensures r.None? <==> values == []
    ensures r.Some? ==> r.value in values
  {
    if values == [] then None
    else
      var keys := Dedup(values);
      assert values[0] in keys;
      Some(keys[MaxIndex(keys, values)])
  }

  /** A most common value: of greatest count, and the first such value to occur. */
  ghost predicate IsMostCommon(values: seq<string>, x: string) {
    x in values
    && (forall y :: y in values ==> Count(values, y) <= Count(values, x))
    && (forall y :: y in values && Count(values, y) == Count(values, x) ==> FirstIndex(values, x) <= FirstIndex(values, y))
  }

  /** `_most_common` returns nothing exactly for no values, and otherwise the most common
      value with ties going to the one seen first. */
  lemma {:induction false} MostCommonSpec(values: seq<string>)
    ensures MostCommon(values).None? <==> values == []
    ensures MostCommon(values).Some? ==> IsMostCommon(values, MostCommon(values).value)
  {
    if values != [] {
      var keys := Dedup(values);
      assert values[0] in keys;
      var i := MaxIndex(keys, values);
      var x := keys[i];
      forall y | y in values ensures Count(values, y) <= Count(values, x) {
        assert y in keys;
      }
      forall y | y in values && Count(values, y) == Count(values, x)
        ensures FirstIndex(values, x) <= FirstIndex(values, y)
      {
        TieNotEarlier(values, i, y);
      }
    }
  }

  lemma {:induction false} TieNotEarlier(values: seq<string>, i: nat, y: string)
    requires values != [] && i == MaxIndex(Dedup(values), values)
    requires y in values && Count(values, y) == Count(values, Dedup(values)[i])
    ensures FirstIndex(values, Dedup(values)[i]) <= FirstIndex(values, y)
  {
    var keys := Dedup(values);
    assert y in keys;
    var b := FirstIndex(keys, y);
    MaxIndexFirst(keys, values, b);
    DedupFirstOccurrenceMonotone(values, i, b);
  }

  /** No key of the same count comes before the maximum's position. */
  lemma {:induction false} MaxIndexFirst(keys: seq<string>, values: seq<string>, b: nat)
    requires keys != [] && b < |keys|
    requires Count(values, keys[b]) == Count(values, keys[MaxIndex(keys, values)])
    ensures MaxIndex(keys, values) <= b
  {
  }

  /** There is only one most common value. */
  lemma {:induction false} MostCommonUnique(values: seq<string>, x: string, y: string)
    requires IsMostCommon(values, x) && IsMostCommon(values, y)
    ensures x == y
  {
    var fx, fy := FirstIndex(values, x), FirstIndex(values, y);
    assert fx == fy;
  }

  lemma {:induction false} CountSnoc(s: seq<string>, v: string, k: string)
    ensures Count(s + [v], k) == Count(s, k) + (if v == k then 1 else 0)
  {
    assert (s + [v])[..|s|] == s;
  }

  /** A step of the counting loop: one more occurrence of `values[i]`, a new key when it
      is seen for the first time. */
  lemma {:induction false} CountsStep(values: seq<string>, i: nat, keys: seq<string>, counts: map<string, nat>, next: map<string, nat>)
    requires i < |values| && keys == Dedup(values[..i])
    requires forall k :: k in counts <==> k in keys
    requires forall k :: k in counts ==> counts[k] == Count(values[..i], k)
    requires next == if values[i] in counts then counts[values[i] := counts[values[i]] + 1] else counts[values[i] := 1]
    ensures Dedup(values[..i + 1]) == if values[i] in counts then keys else keys + [values[i]]
    ensures forall k :: k in next ==> next[k] == Count(values[..i + 1], k)
  {
    var prefix, v := values[..i], values[i];
    assert values[..i + 1] == prefix + [v];
    assert (prefix + [v])[..|prefix|] == prefix;
    if v !in counts {
      CountNotIn(prefix, v);
    }
    forall k ensures Count(values[..i + 1], k) == Count(prefix, k) + (if v == k then 1 else 0) {
      CountSnoc(prefix, v, k);
    }
  }

  /** The counting loop of `_most_common`: a dict of counts whose keys are in order of
      first occurrence. */
  method CountValues(values: seq<string>) returns (keys: seq<string>, counts: map<string, nat>)
    ensures keys == Dedup(values)
    ensures forall k :: k in counts <==> k in keys
    ensures forall k :: k in counts ==> counts[k] == Count(values, k)
  {
    counts := map[];
    keys := [];
    var i := 0;
    while i < |values|
      invariant 0 <= i <= |values|
      invariant keys == Dedup(values[..i])
      invariant forall k :: k in counts <==> k in keys
      invariant forall k :: k in counts ==> counts[k] == Count(values[..i], k)
    {
      var v := values[i];
      var next := if v in counts then counts[v := counts[v] + 1] else counts[v := 1];
      CountsStep(values, i, keys, counts, next);
      if v !in counts {
        keys := keys + [v];
      }
      counts := next;
      i := i + 1;
    }
    assert values[..i] == values;
  }

  /** The `max(counts.items(), key=...)` scan: the first key of greatest count. */
  method MaxCountKey(keys: seq<string>, counts: map<string, nat>, values: seq<string>) returns (best: nat)
    requires keys != []
    requires forall k :: k in keys ==> k in counts && counts[k] == Count(values, k)
    ensures best == MaxIndex(keys, values)
  {
    best := 0;
    var j := 1;
    while j < |keys|
      invariant 1 <= j <= |keys|
      invariant best == MaxIndex(keys[..j], values)
    {
      assert keys[..j + 1][..j] == keys[..j];
      assert keys[best] == keys[..j][best];
      if counts[keys[j]] > counts[keys[best]] {
        best := j;
      }
      j := j + 1;
    }
    assert keys[..j] == keys;
  }

  /** `_most_common(values)`: the count loop, then the scan for the greatest count. */
  method MostCommonLoop(values: seq<string>) returns (r: Option<string>)
    ensures r == MostCommon(values)
  {
    if |values| == 0 {
      return None;
    }
    var keys, counts := CountValues(values);
    assert values[0] in keys;
    var best := MaxCountKey(keys, counts, values);
    return Some(keys[best]);
  }

  // ----- message samples -----

  /** The sample size: at least one message is always taken. */
  function SampleLimit(sampleCount: int): nat {
    if sampleCount < 1 then 1 else sampleCount
  }

  /** `_sample_messages(messages, sample_count)`: the first distinct messages, in order of
      first occurrence, up to the sample size. */
  function SampleMessages(messages: seq<string>, sampleCount: int): (r: seq<string>)
    ensures Distinct(r)
    ensures forall x :: x in r ==> x in messages
    ensures |r| == if |Dedup(messages)| < SampleLimit(sampleCount) then |Dedup(messages)| else SampleLimit(sampleCount)
    ensures r <= Dedup(messages)
  {
    var d := Dedup(messages);
    var n := if |d| < SampleLimit(sampleCount) then |d| else SampleLimit(sampleCount);
    assert forall x :: x in d[..n] ==> x in d;
    d[..n]
  }

  /** The loop of `_sample_messages`, with its `seen` set and early `break`. */
  method SampleMessagesLoop(messages: seq<string>, sampleCount: int) returns (samples: seq<string>)
    ensures samples == SampleMessages(messages, sampleCount)
  {
    var seen: set<string> := {};
    samples := [];
    var i := 0;
    while i < |messages|
      invariant 0 <= i <= |messages|
      invariant samples == Dedup(messages[..i])
      invariant forall x :: x in seen <==> x in samples
      invariant |samples| < SampleLimit(sampleCount)
    {
      var message := messages[i];
      assert messages[..i + 1][..i] == messages[..i];
      if message in seen {
        i := i + 1;
        continue;
      }
      seen := seen + {message};
      samples := samples + [message];
      if |samples| >= sampleCount {
        DedupPrefix(messages, i + 1);
        break;
      }
      i := i + 1;
    }
    if i == |messages| {
      assert messages[..i] == messages;
    }
  }

  // ----- host and service display -----

  /** `len(s)` of a set kept as a sequence. */
  function Card(s: seq<string>): nat {
    |Dedup(s)|
  }

  /** `sorted(s)[0] if s else ""`. */
  function LeastOr(s: seq<string>): (r: string)
    ensures s != [] ==> r in s && forall x :: x in s ==> StrLe(r, x)
    ensures s == [] ==> r == ""
  {
    if s == [] then "" else SortHeadLeast(s); Sort(s)[0]
  }

  /** The display of a host and a service when at least one is known. */
  function Display(host: string, service: string): string {
    if host != "" && service != "" then host + ":" + service
    else if service != "" then service else host
  }

  /** `_format_host_service(servers, services)`: the least host, the least service, and the
      display `host:service`, `service` or `host`, marked when either set has several
      elements; three empty strings when neither a host nor a service is known. */
  function FormatHostService(servers: seq<string>, services: seq<string>): (r: (string, string, string))
    ensures r.2 == "" <==> LeastOr(servers) == "" && LeastOr(services) == ""
    ensures r.2 == "" ==> r == ("", "", "")
    ensures r.2 != "" ==> r.0 == LeastOr(servers) && r.1 == LeastOr(services)
    ensures r.2 != "" ==> r.2 == Display(r.0, r.1) + (if Card(servers) > 1 || Card(services) > 1 then " (multiple)" else "")
  {
    var host := LeastOr(servers);
    var service := LeastOr(services);
    if host == "" && service == "" then ("", "", "")
    else
      var display := Display(host, service);
      var marked := if Card(servers) > 1 || Card(services) > 1 then display + " (multiple)" else display;
      (host, service, marked)
  }

  /** A single host and a single service display as `host:service`, unmarked. */
  lemma {:induction false} FormatSingle(host: string, service: string)
    requires host != "" && service != ""
    ensures FormatHostService([host], [service]) == (host, service, host + ":" + service)
  {
    Singleton(host);
    Singleton(service);
  }

  lemma {:induction false} Singleton(x: string)
    ensures LeastOr([x]) == x && Card([x]) == 1
  {
    assert [x][..0] == [];
    assert Dedup([x]) == [x];
  }

  // ----- text length limits -----

  /** `s[:k]` with Python's reading of a negative bound. */
  function PrefixTo(s: string, k: int): (r: string)
    ensures r <= s
  {
    if k >= 0 then (if k < |s| then s[..k] else s)
    else if |s| + k > 0 then s[..|s| + k] else ""
  }

  /** `_truncate(text, limit)`: for a positive limit the result fits the limit, is the
      text when it fits, and is otherwise a prefix of the text followed by an ellipsis. */
  function Truncate(text: string, limit: int): (r: string)
    ensures |text| <= limit ==> r == text
    ensures limit >= 1 ==> |r| == if |text| <= limit then |text| else limit
    ensures limit >= 1 && |text| > limit ==> r == text[..limit - 1] + "…"
  {
    if |text| <= limit then text else PrefixTo(text, limit - 1) + "…"
  }

  const TelegramLimit: nat := 4000

  /** The length cut of `send_message`: longer texts keep 3997 characters and an ellipsis. */
  function TelegramText(text: string): (r: string)
    ensures |r| <= TelegramLimit
    ensures |text| <= TelegramLimit ==> r == text
    ensures |text| > TelegramLimit ==> |r| == 3998 && r[..3997] == text[..3997] && r[3997] == '…'
  {
    if |text| > TelegramLimit then text[..3997] + "…" else text
  }

  // ----- configuration coercions -----

  /** The words of `{"true", "1", "yes"}` and of `{"false", "0", "no"}`. */
  predicate TrueWord(w: string) {
    w == "true" || w == "1" || w == "yes"
  }

  predicate FalseWord(w: string) {
    w == "false" || w == "0" || w == "no"
  }

  /** The truth value of a lower-cased, stripped word. */
  function WordTruth(lowered: string, fallback: bool): (r: bool)
    ensures TrueWord(lowered) ==> r
    ensures FalseWord(lowered) ==> !r
    ensures !TrueWord(lowered) && !FalseWord(lowered) ==> r == fallback
  {
    if TrueWord(lowered) then true
    else if FalseWord(lowered) then false
    else fallback
  }

  /** `_coerce_bool(value, fallback)`. */
  function CoerceBool(value: Json, fallback: bool): (r: bool)
    ensures value.JBool? ==> r == value.b
    ensures value.JStr? ==> r == WordTruth(Lower(Strip(value.s)), fallback)
    ensures !value.JBool? && !value.JStr? ==> r == fallback
    ensures r != fallback ==> value.JBool? || (value.JStr? && (TrueWord(Lower(Strip(value.s))) || FalseWord(Lower(Strip(value.s)))))
  {
    match value
    case JBool(b) => b
    case JStr(s) => WordTruth(Lower(Strip(s)), fallback)
    case _ => fallback
  }

  /** `_coerce_int(value, fallback)`. A boolean is an `int` in Python and counts as 1 or 0. */
  function CoerceInt(value: Json, fallback: int): (r: int)
    ensures value.JInt? ==> r == value.i
    ensures value.JBool? ==> r == if value.b then 1 else 0
    ensures value.JStr? && ParseInt(value.s).Some? ==> r == ParseInt(value.s).value
    ensures value.JStr? && ParseInt(value.s).None? ==> r == fallback
    ensures !value.JInt? && !value.JStr? && !value.JBool? ==> r == fallback
    ensures r != fallback ==> value.JInt? || value.JBool? || (value.JStr? && ParseInt(value.s) == Some(r))
  {
    match value
    case JBool(b) => if b then 1 else 0
    case JInt(i) => i
    case JStr(s) => ParseInt(s).GetOr(fallback)
    case _ => fallback
  }

  /** A count written as text reads back as the same count. */
  lemma {:induction false} CoerceIntOfText(i: int, fallback: int)
    ensures CoerceInt(JStr(Decimal(i)), fallback) == i
  {
    ParseDecimal(i);
  }

  /** A text's truth value does not depend on its letter case or surrounding whitespace:
      coercing it is coercing its normalised form. */
  lemma {:induction false} CoerceBoolNormalised(s: string, fallback: bool)
    ensures CoerceBool(JStr(s), fallback) == CoerceBool(JStr(Lower(Strip(s))), fallback)
  {
    var w := Lower(Strip(s));
    CoerceBoolText(s, w, fallback);
    NormalIdempotent(s, w);
    CoerceBoolText(w, w, fallback);
  }

  lemma {:induction false} CoerceBoolText(s: string, w: string, fallback: bool)
    requires Lower(Strip(s)) == w
    ensures CoerceBool(JStr(s), fallback) == WordTruth(w, fallback)
  {
  }

  lemma {:induction false} NormalIdempotent(s: string, w: string)
    requires w == Lower(Strip(s))
    ensures Lower(Strip(w)) == w
  {
    NormalisedFixed(Strip(s));
  }

  /** The lower-cased form of a stripped text is stripped and lower-cased already. */
  lemma {:induction false} NormalisedFixed(t: string)
    requires t != [] ==> !IsSpace(t[0]) && !IsSpace(t[|t| - 1])
    ensures Lower(Strip(Lower(t))) == Lower(t)
  {
    var l := Lower(t);
    if t != [] {
      LowerCharSpace(t[0]);
      LowerCharSpace(t[|t| - 1]);
    }
    StripStripped(l);
    forall k | 0 <= k < |l| ensures LowerChar(l[k]) == l[k] {
      LowerCharIdempotent(t[k]);
    }
  }

  /** Lower-casing maps whitespace to itself and letters to letters. */
  lemma {:induction false} LowerCharSpace(c: char)
    ensures IsSpace(LowerChar(c)) <==> IsSpace(c)
  {
  }

  lemma {:induction false} LowerCharIdempotent(c: char)
    ensures LowerChar(LowerChar(c)) == LowerChar(c)
  {
  }

  /** Round trip: the text Python writes for a boolean coerces back to that boolean. */
  lemma {:induction false} CoerceBoolOfRepr(b: bool, fallback: bool)
    ensures CoerceBool(JStr(Repr(JBool(b))), fallback) == b
  {
    var s := Repr(JBool(b));
    StripStripped(s);
    if b {
      assert s == "True";
      assert Lower(s) == "true" by {
        assert |Lower(s)| == 4;
        assert Lower(s)[0] == 't';
      }
    } else {
      assert s == "False";
      assert Lower(s) == "false" by {
        assert |Lower(s)| == 5;
        assert Lower(s)[0] == 'f';
      }
      assert !TrueWord("false");
    }
  }
}
