/** The rule language of drop filters and priority rules: `_to_list` and `_match_rule`
    (app.py). A rule's `match` names a context field, an operator and expected values. */
module Rules {
  import opened PyJson
  import opened PyStr

  /** `_to_list(value)`: nothing for `None`, the texts of the non-`None` items of a list,
      and the text of any other value. */
  function ToList(value: Json): (r: seq<string>)
    ensures value == JNull ==> r == []
    ensures !value.JList? && value != JNull ==> r == [Str(value)]
    ensures value.JList? ==> |r| <= |value.items|
    ensures value.JList? ==> forall x :: x in r ==> exists v :: v in value.items && v != JNull && x == Str(v)
    ensures value.JList? ==> forall v :: v in value.items && v != JNull ==> Str(v) in r
    ensures r == [] <==> value == JNull || (value.JList? && forall v :: v in value.items ==> v == JNull)
  {
    match value
    case JNull => []
    case JList(items) => ListTexts(items)
    case _ => [Str(value)]
  }

  /** `[str(v) for v in items if v is not None]`. */
  function ListTexts(items: seq<Json>): (r: seq<string>)
    ensures |r| <= |items|
    ensures forall x :: x in r ==> exists v :: v in items && v != JNull && x == Str(v)
    ensures forall v :: v in items && v != JNull ==> Str(v) in r
    ensures r == [] <==> forall v :: v in items ==> v == JNull
  {
    if items == [] then []
    else
      var rest := ListTexts(items[1..]);
      assert forall v :: v in items[1..] ==> v in items;
      assert items == [items[0]] + items[1..];
      if items[0] == JNull then rest
      else
        assert items[0] in items;
        assert forall x :: x in [Str(items[0])] + rest ==> x == Str(items[0]) || x in rest;
        [Str(items[0])] + rest
  }

  /** `any(rel(x, y) for x in xs for y in ys)`. */
  function AnyPair(xs: seq<string>, ys: seq<string>, rel: (string, string) -> bool): bool {
    xs != [] && (AnyWith(xs[0], ys, rel) || AnyPair(xs[1..], ys, rel))
  }

  function AnyWith(x: string, ys: seq<string>, rel: (string, string) -> bool): bool {
    ys != [] && (rel(x, ys[0]) || AnyWith(x, ys[1..], rel))
  }

  lemma {:induction false} AnyWithSpec(x: string, ys: seq<string>, rel: (string, string) -> bool)
    ensures AnyWith(x, ys, rel) <==> exists j :: 0 <= j < |ys| && rel(x, ys[j])
  {
    if ys != [] {
      AnyWithSpec(x, ys[1..], rel);
      assert forall j :: 1 <= j < |ys| ==> ys[j] == ys[1..][j - 1];
      if exists j :: 0 <= j < |ys| && rel(x, ys[j]) {
        var j :| 0 <= j < |ys| && rel(x, ys[j]);
        if j > 0 {
          assert rel(x, ys[1..][j - 1]);
        }
      }
    }
  }

  /** The generator of `any` finds a pair exactly when one exists. */
  lemma {:induction false} AnyPairSpec(xs: seq<string>, ys: seq<string>, rel: (string, string) -> bool)
    ensures AnyPair(xs, ys, rel) <==> exists i, j :: 0 <= i < |xs| && 0 <= j < |ys| && rel(xs[i], ys[j])
  {
    if xs != [] {
      AnyPairSpec(xs[1..], ys, rel);
      AnyWithSpec(xs[0], ys, rel);
      if exists i, j :: 0 <= i < |xs| && 0 <= j < |ys| && rel(xs[i], ys[j]) {
        var i, j :| 0 <= i < |xs| && 0 <= j < |ys| && rel(xs[i], ys[j]);
        if i > 0 {
          assert rel(xs[1..][i - 1], ys[j]);
        }
      }
      if AnyPair(xs[1..], ys, rel) {
        var i, j :| 0 <= i < |xs[1..]| && 0 <= j < |ys| && rel(xs[1..][i], ys[j]);
        assert rel(xs[i + 1], ys[j]);
      }
    }
  }

  /** `expected_values[0] if expected_values else ""`. */
  function FirstOrEmpty(values: seq<string>): string {
    if values == [] then "" else values[0]
  }

  const KnownOps: set<Json> := {JStr("contains"), JStr("contains_any"), JStr("regex"), JStr("in"), JStr("prefix_in"), JStr("eq")}

  /** The operator dispatch of `_match_rule`. `search(pattern, text)` stands for
      `re.search(pattern, text)` finding a match. */
  function Apply(op: Json, actual: seq<string>, expected: seq<string>,
                 search: (string, string) -> bool): bool {
    if op == JStr("contains") then AnyPair(actual, [FirstOrEmpty(expected)], (a, n) => Contains(a, n))
    else if op == JStr("contains_any") then AnyPair(actual, expected, (a, n) => Contains(a, n))
    else if op == JStr("regex") then AnyPair(actual, [FirstOrEmpty(expected)], (a, p) => search(p, a))
    else if op == JStr("in") then AnyPair(actual, expected, (a, e) => a == e)
    else if op == JStr("prefix_in") then AnyPair(actual, expected, (a, p) => StartsWith(a, p))
    else if op == JStr("eq") then AnyPair(actual, [FirstOrEmpty(expected)], (a, n) => a == n)
    else false
  }

  /** The parts of a rule: its `match` mapping (the rule itself when it has none). */
  function MatchOf(rule: Dict): Json {
    GetOr(rule, "match", JObj(rule))
  }

  /** The `match` mapping, empty when it is not a mapping, and its parts. */
  function MatchDict(rule: Dict): Dict {
    if MatchOf(rule).JObj? then MatchOf(rule).entries else []
  }

  function Op(rule: Dict): Json {
    At(MatchDict(rule), "op")
  }

  function Actual(rule: Dict, context: Dict): seq<string> {
    ActualValues(MatchDict(rule), context)
  }

  function Expected(rule: Dict): seq<string> {
    ToList(At(MatchDict(rule), "value"))
  }

  /** The context values a rule's field names. */
  function ActualValues(m: Dict, context: Dict): seq<string> {
    ToList(At(context, Str(At(m, "field"))))
  }

  /** `_match_rule(rule, context)`. Checking `op not in {"eq"}` hashes the operator, so an
      operator that is a list or a mapping raises `TypeError` when no value is expected. */
  function MatchRule(rule: Dict, context: Dict, search: (string, string) -> bool): (r: Py<bool>)
    ensures r.Raises? <==> MatchOf(rule).JObj? && Truthy(At(MatchDict(rule), "field")) && Truthy(Op(rule))
                           && Actual(rule, context) != [] && Expected(rule) == [] && !Hashable(Op(rule))
    ensures r.Raises? ==> r.error == TypeError
    ensures Dispatches(rule, context) ==> r == Ok(Apply(Op(rule), Actual(rule, context), Expected(rule), search))
    ensures r.Ok? && !Dispatches(rule, context) ==> !r.value
  {
    var m := MatchOf(rule);
    if !m.JObj? then Ok(false)
    else
      var op := At(m.entries, "op");
      if !Truthy(At(m.entries, "field")) || !Truthy(op) then Ok(false)
      else
        var actual := ActualValues(m.entries, context);
        if actual == [] then Ok(false)
        else
          var expected := ToList(At(m.entries, "value"));
          if expected == [] && !Hashable(op) then Raises(TypeError)
          else if expected == [] && op != JStr("eq") then Ok(false)
          else Ok(Apply(op, actual, expected, search))
  }

  /** A rule that reaches the operator dispatch: a `match` mapping with a field and an
      operator, a value in the context, and expected values unless the operator is `eq`. */
  predicate Dispatches(rule: Dict, context: Dict) {
    MatchOf(rule).JObj? && Truthy(At(MatchDict(rule), "field")) && Truthy(Op(rule))
    && Actual(rule, context) != [] && (Expected(rule) != [] || Op(rule) == JStr("eq"))
  }

  /** `contains` and `eq` use only the first expected value (`eq` compares with "" when
      there is none); `contains_any`, `in` and `prefix_in` hold when some context value
      contains, equals or starts with some expected value; `regex` searches with the first. */
  lemma {:induction false} MatchRuleOperators(rule: Dict, context: Dict, search: (string, string) -> bool)
    requires Dispatches(rule, context)
    ensures var r := MatchRule(rule, context, search); var a := Actual(rule, context); var e := Expected(rule);
      r.Ok?
      && (Op(rule) == JStr("contains") ==> (r.value <==> exists i :: 0 <= i < |a| && Contains(a[i], e[0])))
      && (Op(rule) == JStr("contains_any") ==>
            (r.value <==> exists i, j :: 0 <= i < |a| && 0 <= j < |e| && Contains(a[i], e[j])))
      && (Op(rule) == JStr("regex") ==> (r.value <==> exists i :: 0 <= i < |a| && search(e[0], a[i])))
      && (Op(rule) == JStr("in") ==> (r.value <==> exists i, j :: 0 <= i < |a| && 0 <= j < |e| && a[i] == e[j]))
      && (Op(rule) == JStr("prefix_in") ==>
            (r.value <==> exists i, j :: 0 <= i < |a| && 0 <= j < |e| && StartsWith(a[i], e[j])))
      && (Op(rule) == JStr("eq") ==> (r.value <==> exists i :: 0 <= i < |a| && a[i] == FirstOrEmpty(e)))
      && (Op(rule) !in KnownOps ==> !r.value)
  {
    var a, e := Actual(rule, context), Expected(rule);
    if Op(rule) == JStr("contains") {
      SingleNeedle(a, e[0], (x, n) => Contains(x, n));
    } else if Op(rule) == JStr("contains_any") {
      AnyPairSpec(a, e, (x, n) => Contains(x, n));
    } else if Op(rule) == JStr("regex") {
      SingleNeedle(a, e[0], (x, p) => search(p, x));
    } else if Op(rule) == JStr("in") {
      AnyPairSpec(a, e, (x, y) => x == y);
    } else if Op(rule) == JStr("prefix_in") {
      AnyPairSpec(a, e, (x, p) => StartsWith(x, p));
    } else if Op(rule) == JStr("eq") {
      SingleNeedle(a, FirstOrEmpty(e), (x, n) => x == n);
    }
  }

  lemma {:induction false} SingleNeedle(xs: seq<string>, y: string, rel: (string, string) -> bool)
    ensures AnyPair(xs, [y], rel) <==> exists i :: 0 <= i < |xs| && rel(xs[i], y)
  {
    AnyPairSpec(xs, [y], rel);
    if exists i :: 0 <= i < |xs| && rel(xs[i], y) {
      var i :| 0 <= i < |xs| && rel(xs[i], y);
      assert [y][0] == y;
    }
  }

  /** `_to_list("")` is `[""]`: an empty context value still reaches the dispatch. */
  lemma {:induction false} EmptyTextIsAValue()
    ensures ToList(JStr("")) == [""]
  {
  }
}
