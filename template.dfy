/** Runbook templates: the replacement-field scanner that `str.format` and
    `string.Formatter.parse` share, and `_render_runbook` (app.py), which fills in
    `{host}`, `{service}` and `{monitor}`. */
module Template {
  import opened PyJson
  import opened PyStr

  /** A replacement field: its name, its `!` conversion character, and its format spec. */
  datatype Markup = Markup(name: string, conversion: Option<char>, spec: string)

  /** One item of `Formatter.parse`: literal text, then an optional replacement field. */
  datatype Item = Item(literal: string, field: Option<Markup>)

  /** The items scanned before the end of the text or before a syntax error, and that
      error's message. The scan is lazy: items before the error are still seen. */
  datatype Parsed = Parsed(items: seq<Item>, error: Option<string>)

  /** The result of scanning one piece: a value and the text after it, or an error. */
  datatype Next<T> = Next(value: T, rest: string) | Fails(message: string)

  const SingleClose := "Single '}' encountered in format string"
  const SingleOpen := "Single '{' encountered in format string"
  const ExpectedClose := "expected '}' before end of string"
  const UnexpectedOpen := "unexpected '{' in field name"
  const MissingConversion := "end of string while looking for conversion specifier"
  const ExpectedColon := "expected ':' after conversion specifier"
  const UnmatchedSpec := "unmatched '{' in format spec"

  predicate IsBrace(c: char) {
    c == '{' || c == '}'
  }

  /** The position of the first brace at or after `i`, `|s|` if there is none. */
  function BraceAt(s: string, i: nat): (k: nat)
    requires i <= |s|
    ensures i <= k <= |s|
    ensures k < |s| ==> IsBrace(s[k])
    ensures forall j :: i <= j < k ==> !IsBrace(s[j])
    decreases |s| - i
  {
    if i == |s| || IsBrace(s[i]) then i else BraceAt(s, i + 1)
  }

  /** The position of the first `]` at or after `i`, `|s|` if there is none. */
  function BracketEnd(s: string, i: nat): (k: nat)
    requires i <= |s|
    ensures i <= k <= |s|
    decreases |s| - i
  {
    if i == |s| || s[i] == ']' then i else BracketEnd(s, i + 1)
  }

  /** How the field name ends: at a `}`, `:` or `!`, at a `{`, or at the end of the text. */
  datatype NameEnd = Stop(at: nat) | Unexpected | RanOut

  /** The field-name scan: `[` skips to the next `]`, inside which no character ends the name. */
  function NameScan(t: string, i: nat): (r: NameEnd)
    requires i <= |t|
    ensures r.Stop? ==> i <= r.at < |t| && (t[r.at] == '}' || t[r.at] == ':' || t[r.at] == '!')
    decreases |t| - i
  {
    if i == |t| then RanOut
    else if t[i] == '{' then Unexpected
    else if t[i] == '[' then NameScan(t, BracketEnd(t, i + 1))
    else if t[i] == '}' || t[i] == ':' || t[i] == '!' then Stop(i)
    else NameScan(t, i + 1)
  }

  /** The position of the `}` that closes a format spec, counting nested braces. */
  function SpecEnd(t: string, j: nat, depth: nat): (r: Option<nat>)
    requires j <= |t| && depth >= 1
    ensures r.Some? ==> j <= r.value < |t| && t[r.value] == '}'
    decreases |t| - j
  {
    if j == |t| then None
    else if t[j] == '{' then SpecEnd(t, j + 1, depth + 1)
    else if t[j] == '}' then (if depth == 1 then Some(j) else SpecEnd(t, j + 1, depth - 1))
    else SpecEnd(t, j + 1, depth)
  }

  function SpecPart(t: string, name: string, conversion: Option<char>, start: nat): (r: Next<Markup>)
    requires start <= |t|
    ensures r.Next? ==> |r.rest| < |t| - start + 1 && r.value.name == name
  {
    match SpecEnd(t, start, 1)
    case None => Fails(UnmatchedSpec)
    case Some(e) => Next(Markup(name, conversion, t[start..e]), t[e + 1..])
  }

  /** A replacement field, from just after its `{`. */
  function ParseField(t: string): (r: Next<Markup>)
    ensures r.Next? ==> |r.rest| < |t|
  {
    match NameScan(t, 0)
    case Unexpected => Fails(UnexpectedOpen)
    case RanOut => Fails(ExpectedClose)
    case Stop(i) =>
      var name := t[..i];
      if t[i] == '}' then Next(Markup(name, None, ""), t[i + 1..])
      else if t[i] == ':' then SpecPart(t, name, None, i + 1)
      else if i + 1 == |t| then Fails(MissingConversion)
      else if i + 2 < |t| && t[i + 2] == '}' then Next(Markup(name, Some(t[i + 1]), ""), t[i + 3..])
      else if i + 2 < |t| && t[i + 2] != ':' then Fails(ExpectedColon)
      else SpecPart(t, name, Some(t[i + 1]), if i + 2 < |t| then i + 3 else |t|)
  }

  /** One step of the scanner: literal text up to the first brace, where `{{` and `}}` stand
      for one brace, then a replacement field if a single `{` follows. */
  function NextItem(s: string): (r: Next<Item>)
    requires s != []
    ensures r.Next? ==> |r.rest| < |s|
  {
    var k := BraceAt(s, 0);
    if k == |s| then Next(Item(s, None), [])
    else if s[k] == '}' && (k + 1 == |s| || s[k + 1] != '}') then Fails(SingleClose)
    else if k + 1 == |s| then Fails(SingleOpen)
    else if s[k + 1] == s[k] then Next(Item(s[..k + 1], None), s[k + 2..])
    else
      match ParseField(s[k + 1..])
      case Fails(m) => Fails(m)
      case Next(markup, rest) => Next(Item(s[..k], Some(markup)), rest)
  }

  /** `Formatter().parse(s)`, run until it ends or raises. */
  function Scan(s: string): (r: Parsed)
    ensures s == [] ==> r == Parsed([], None)
    decreases |s|
  {
    if s == [] then Parsed([], None)
    else
      match NextItem(s)
      case Fails(m) => Parsed([], Some(m))
      case Next(item, rest) =>
        var p := Scan(rest);
        Parsed([item] + p.items, p.error)
  }

  /** Text without braces scans as one literal item and no error. */
  lemma {:induction false} ScanPlain(s: string)
    requires s != [] && forall j :: 0 <= j < |s| ==> !IsBrace(s[j])
    ensures Scan(s) == Parsed([Item(s, None)], None)
  {
    NextItemPlain(s);
    ScanOne(s, Item(s, None));
  }

  lemma {:induction false} NextItemPlain(s: string)
    requires s != [] && forall j :: 0 <= j < |s| ==> !IsBrace(s[j])
    ensures NextItem(s) == Next(Item(s, None), [])
  {
  }

  lemma {:induction false} ScanOne(s: string, item: Item)
    requires s != [] && NextItem(s) == Next(item, [])
    ensures Scan(s) == Parsed([item], None)
  {
    assert [item] + [] == [item];
  }

  // ----- rendering -----

  const HostPlaceholder := "нужный хост"
  const ServicePlaceholder := "нужный сервис"
  const MonitorPlaceholder := "нужный монитор"

  /** The part of a field name before its first `.` or `[`: the argument it names. */
  function FieldHead(name: string): (r: string)
    ensures r <= name
  {
    if name == [] || name[0] == '.' || name[0] == '[' then []
    else [name[0]] + FieldHead(name[1..])
  }

  /** The keyword arguments `str.format` is called with. */
  datatype Values = Values(host: string, service: string, monitor: string)

  /** The keyword argument a field names, if it is one of the three. */
  function Argument(head: string, v: Values): Option<string> {
    if head == "host" then Some(v.host)
    else if head == "service" then Some(v.service)
    else if head == "monitor" then Some(v.monitor)
    else None
  }

  // ----- format specs -----

  /** An alignment character of the format-spec mini-language. */
  predicate IsAlign(c: char) {
    c == '<' || c == '>' || c == '=' || c == '^'
  }

  predicate CharAt(s: string, i: nat, c: char) {
    i < |s| && s[i] == c
  }

  /** The end of the run of ASCII digits that starts at `i`. */
  function DigitsEnd(s: string, i: nat): (k: nat)
    requires i <= |s|
    ensures i <= k <= |s|
    ensures forall j :: i <= j < k ==> IsDigit(s[j])
    ensures k < |s| ==> !IsDigit(s[k])
    decreases |s| - i
  {
    if i == |s| || !IsDigit(s[i]) then i else DigitsEnd(s, i + 1)
  }

  /** What a format spec asks of a text: the fill character, the alignment (`<`, `>` or
      `^`), the least width and the greatest length kept. */
  datatype TextSpec = TextSpec(fill: char, align: char, width: nat, precision: Option<nat>)

  /** How `format(text, spec)` reads `spec` for a `str`, as CPython 3.10 and later do:
      `[[fill]align][sign][z][#][0][width][,|_][.precision][type]`. A sign, `z`, `#`, `=`
      alignment, a grouping character, a type other than `s`, a `.` without digits and
      any text left over are a `ValueError`. A `0` before the width, without a fill
      character, makes `0` the fill character and keeps the left alignment. */
  function ParseTextSpec(spec: string): (r: Py<TextSpec>)
    ensures r.Raises? ==> r.error == ValueError
    ensures spec == "" ==> r == Ok(TextSpec(' ', '<', 0, None))
  {
    var fillGiven := |spec| >= 2 && IsAlign(spec[1]);
    var alignGiven := fillGiven || (|spec| >= 1 && IsAlign(spec[0]));
    var p0: nat := if fillGiven then 2 else if alignGiven then 1 else 0;
    var fill := if fillGiven then spec[0] else ' ';
    var align := if fillGiven then spec[1] else if alignGiven then spec[0] else '<';
    var signed := CharAt(spec, p0, '+') || CharAt(spec, p0, '-') || CharAt(spec, p0, ' ');
    var p1: nat := if signed then p0 + 1 else p0;
    var negativeZero := CharAt(spec, p1, 'z');
    var p2: nat := if negativeZero then p1 + 1 else p1;
    var alternate := CharAt(spec, p2, '#');
    var p3: nat := if alternate then p2 + 1 else p2;
    var zeroFill := !fillGiven && CharAt(spec, p3, '0');
    var p4: nat := if zeroFill then p3 + 1 else p3;
    var p5 := DigitsEnd(spec, p4);
    var grouping := CharAt(spec, p5, ',') || CharAt(spec, p5, '_');
    var p6: nat := if grouping then p5 + 1 else p5;
    var dotted := CharAt(spec, p6, '.');
    var p7 := if dotted then DigitsEnd(spec, p6 + 1) else p6;
    if dotted && p7 == p6 + 1 then Raises(ValueError)
    else if |spec| - p7 > 1 then Raises(ValueError)
    else if p7 < |spec| && spec[p7] != 's' then Raises(ValueError)
    else if signed || negativeZero || alternate || align == '=' || grouping then Raises(ValueError)
    else
      Ok(TextSpec(if zeroFill then '0' else fill, align, DigitsValue(spec[p4..p5]),
                  if dotted then Some(DigitsValue(spec[p6 + 1..p7])) else None))
  }

  /** The text cut to the precision. */
  function Clip(text: string, precision: Option<nat>): (t: string)
    ensures t <= text
    ensures precision.Some? && precision.value < |text| ==> |t| == precision.value
    ensures precision.None? || precision.value >= |text| ==> t == text
  {
    if precision.Some? && precision.value < |text| then text[..precision.value] else text
  }

  /** The number of fill characters before the text. */
  function LeftPad(ts: TextSpec, n: nat): nat {
    if ts.width <= n then 0
    else if ts.align == '>' then ts.width - n
    else if ts.align == '^' then (ts.width - n) / 2
    else 0
  }

  function Fill(c: char, n: nat): (r: string)
    ensures |r| == n && forall k :: 0 <= k < n ==> r[k] == c
  {
    seq(n, _ => c)
  }

  /** A text formatted by a spec: the text cut to the precision, once, padded with the
      fill character to at least the width: all of the padding after the text for `<`, all
      of it before the text for `>`, and the smaller half before it for `^`. */
  function ApplyTextSpec(text: string, ts: TextSpec): (r: string)
    ensures var t := Clip(text, ts.precision);
      && |r| == (if ts.width > |t| then ts.width else |t|)
      && r[LeftPad(ts, |t|)..LeftPad(ts, |t|) + |t|] == t
      && forall k :: 0 <= k < |r| && !(LeftPad(ts, |t|) <= k < LeftPad(ts, |t|) + |t|) ==> r[k] == ts.fill
  {
    var t := Clip(text, ts.precision);
    if ts.width <= |t| then t
    else
      var left := LeftPad(ts, |t|);
      var r := Fill(ts.fill, left) + t + Fill(ts.fill, ts.width - |t| - left);
      assert r[left..left + |t|] == t;
      r
  }

  /** `format(text, spec)` for a text. */
  function FormatText(text: string, spec: string): (r: Py<string>)
    ensures spec == "" ==> r == Ok(text)
    ensures r.Raises? <==> ParseTextSpec(spec).Raises?
    ensures r.Raises? ==> r.error == ValueError
    ensures r.Ok? ==> r.value == ApplyTextSpec(text, ParseTextSpec(spec).value)
  {
    var ts :- ParseTextSpec(spec);
    Ok(ApplyTextSpec(text, ts))
  }

  // ----- replacement fields -----

  /** The value of a replacement field with keyword arguments only, after its
      conversion: an empty or numeric name asks for a positional argument (`IndexError`),
      another unknown name is a `KeyError`, `!r` and `!a` give `repr()` and `ascii()`,
      and a conversion other than `r`, `s` or `a` is a `ValueError`. */
  function FieldValue(m: Markup, v: Values): (r: Py<string>)
    ensures r == Raises(IndexError) <==> FieldHead(m.name) == "" || AllDigits(FieldHead(m.name))
    ensures r == Raises(KeyError) <==> FieldHead(m.name) != "" && !AllDigits(FieldHead(m.name))
                                       && Argument(FieldHead(m.name), v).None?
    ensures r.Ok? ==> Argument(FieldHead(m.name), v).Some?
    ensures r.Ok? && (m.conversion.None? || m.conversion == Some('s')) ==> r.value == Argument(FieldHead(m.name), v).value
  {
    var head := FieldHead(m.name);
    if head == "" || AllDigits(head) then Raises(IndexError)
    else
      match Argument(head, v)
      case None => Raises(KeyError)
      case Some(text) =>
        match m.conversion
        case None => Ok(text)
        case Some(c) =>
          if c == 's' then Ok(text)
          else if c == 'r' then Ok(ReprText(text, false))
          else if c == 'a' then Ok(ReprText(text, true))
          else Raises(ValueError)
  }

  /** The nesting depth `str.format` starts at: a format spec that holds a `{` is itself
      formatted one level down, and formatting at depth 0 raises `ValueError`. */
  const TopDepth: nat := 2

  predicate NeedsExpanding(spec: string) {
    '{' in spec
  }

  /** One replacement field: its value, then its format spec, expanded first when it holds
      replacement fields of its own. */
  function RenderField(m: Markup, v: Values, depth: nat): (r: Py<string>)
    ensures FieldValue(m, v).Raises? ==> r == FieldValue(m, v)
    ensures FieldValue(m, v).Ok? && !NeedsExpanding(m.spec) ==> r == FormatText(FieldValue(m, v).value, m.spec)
    ensures FieldValue(m, v).Ok? && NeedsExpanding(m.spec) && depth <= 1 ==> r == Raises(ValueError)
    decreases depth, 0
  {
    var text :- FieldValue(m, v);
    if !NeedsExpanding(m.spec) then FormatText(text, m.spec)
    else if depth <= 1 then Raises(ValueError)
    else
      var p := Scan(m.spec);
      var spec :- Format(p.items, p.error, v, depth - 1);
      FormatText(text, spec)
  }

  /** `str.format` over scanned items: the first field that raises decides, and a syntax
      error after the last item raises `ValueError`. */
  function Format(items: seq<Item>, error: Option<string>, v: Values, depth: nat): Py<string>
    decreases depth, |items|
  {
    if items == [] then (if error.Some? then Raises(ValueError) else Ok(""))
    else
      var item := items[0];
      match item.field
      case None =>
        var rest :- Format(items[1..], error, v, depth);
        Ok(item.literal + rest)
      case Some(m) =>
        var text :- RenderField(m, v, depth);
        var rest :- Format(items[1..], error, v, depth);
        Ok(item.literal + text + rest)
  }

  /** `step.format(host=..., service=..., monitor=...)`. */
  function FormatStep(step: string, v: Values): Py<string> {
    var p := Scan(step);
    Format(p.items, p.error, v, TopDepth)
  }

  function OrPlaceholder(value: string, placeholder: string): string {
    if value == "" then placeholder else value
  }

  /** The arguments after empty values are replaced by their placeholder phrases. */
  function Arguments(host: string, service: string, monitor: string): (v: Values)
    ensures v.host != "" && v.service != "" && v.monitor != ""
    ensures host == "" ==> v.host == HostPlaceholder
    ensures service == "" ==> v.service == ServicePlaceholder
    ensures monitor == "" ==> v.monitor == MonitorPlaceholder
    ensures host != "" ==> v.host == host
    ensures service != "" ==> v.service == service
    ensures monitor != "" ==> v.monitor == monitor
  {
    Values(OrPlaceholder(host, HostPlaceholder), OrPlaceholder(service, ServicePlaceholder),
           OrPlaceholder(monitor, MonitorPlaceholder))
  }

  /** One step of `_render_runbook`: a `KeyError` leaves the step as written; other
      errors propagate. */
  function RenderStep(step: string, v: Values): (r: Py<string>)
    ensures r.Raises? ==> r.error != KeyError
    ensures FormatStep(step, v) == Raises(KeyError) ==> r == Ok(step)
    ensures FormatStep(step, v) != Raises(KeyError) ==> r == FormatStep(step, v)
  {
    var r := FormatStep(step, v);
    if r == Raises(KeyError) then Ok(step) else r
  }

  /** The rendering of each step. */
  function Rendered(steps: seq<string>, v: Values): (r: seq<Py<string>>)
    ensures |r| == |steps| && forall i :: 0 <= i < |steps| ==> r[i] == RenderStep(steps[i], v)
  {
    seq(|steps|, i requires 0 <= i < |steps| => RenderStep(steps[i], v))
  }

  /** The lines of a list of outcomes, in order; the first error raised propagates. */
  function Collect(rs: seq<Py<string>>): Py<seq<string>> {
    if rs == [] then Ok([])
    else
      var init :- Collect(rs[..|rs| - 1]);
      var last :- rs[|rs| - 1];
      Ok(init + [last])
  }

  /** `_render_runbook(steps, host, service, monitor)`. */
  function RenderRunbook(steps: seq<string>, v: Values): (r: Py<seq<string>>)
    ensures r.Ok? <==> forall i :: 0 <= i < |steps| ==> RenderStep(steps[i], v).Ok?
    ensures r.Ok? ==> |r.value| == |steps| && forall i :: 0 <= i < |steps| ==> RenderStep(steps[i], v) == Ok(r.value[i])
  {
    var rs := Rendered(steps, v);
    CollectOk(rs);
    if Collect(rs).Ok? then CollectLines(rs); Collect(rs) else Collect(rs)
  }

  /** The loop of `_render_runbook`. */
  method RenderRunbookLoop(steps: seq<string>, host: string, service: string, monitor: string)
      returns (r: Py<seq<string>>)
    ensures r == RenderRunbook(steps, Arguments(host, service, monitor))
  {
    var v := Arguments(host, service, monitor);
    ghost var rs := Rendered(steps, v);
    var rendered: seq<string> := [];
    var i := 0;
    while i < |steps|
      invariant 0 <= i <= |steps|
      invariant Collect(rs[..i]) == Ok(rendered)
    {
      assert rs[..i + 1][..i] == rs[..i];
      var step := RenderStep(steps[i], v);
      if step.Raises? {
        CollectRaisesFrom(rs, i);
        return Raises(step.error);
      }
      rendered := rendered + [step.value];
      i := i + 1;
    }
    assert rs[..i] == rs;
    return Ok(rendered);
  }

  /** Once an outcome is an error, the collection raises it. */
  lemma {:induction false} CollectRaisesFrom(rs: seq<Py<string>>, i: nat)
    requires i < |rs| && rs[i].Raises? && Collect(rs[..i]).Ok?
    ensures Collect(rs) == Raises(rs[i].error)
    decreases |rs|
  {
    if i < |rs| - 1 {
      var init := rs[..|rs| - 1];
      assert init[..i] == rs[..i] && init[i] == rs[i];
      CollectRaisesFrom(init, i);
    } else {
      assert rs[..|rs| - 1] == rs[..i];
    }
  }

  /** The collection succeeds exactly when every outcome does. */
  lemma {:induction false} CollectOk(rs: seq<Py<string>>)
    ensures Collect(rs).Ok? <==> forall i :: 0 <= i < |rs| ==> rs[i].Ok?
  {
    if rs != [] {
      var init := rs[..|rs| - 1];
      CollectOk(init);
      assert forall i :: 0 <= i < |init| ==> init[i] == rs[i];
    }
  }

  /** A successful collection holds each outcome's line at its position. */
  lemma {:induction false} CollectLines(rs: seq<Py<string>>)
    requires Collect(rs).Ok?
    ensures |Collect(rs).value| == |rs|
    ensures forall i :: 0 <= i < |rs| ==> rs[i] == Ok(Collect(rs).value[i])
  {
    if rs != [] {
      var init := rs[..|rs| - 1];
      CollectLines(init);
      var prev := Collect(init).value;
      assert Collect(rs).value == prev + [rs[|rs| - 1].value];
      assert forall i :: 0 <= i < |init| ==> init[i] == rs[i];
    }
  }

  /** The steps `{host}`, `{service}` and `{monitor}` render as the alert's host, service
      and monitor name, each replaced by its placeholder phrase when empty. */
  lemma {:induction false} RenderArguments(host: string, service: string, monitor: string)
    ensures RenderStep("{host}", Arguments(host, service, monitor)) == Ok(OrPlaceholder(host, HostPlaceholder))
    ensures RenderStep("{service}", Arguments(host, service, monitor)) == Ok(OrPlaceholder(service, ServicePlaceholder))
    ensures RenderStep("{monitor}", Arguments(host, service, monitor)) == Ok(OrPlaceholder(monitor, MonitorPlaceholder))
  {
    var v := Arguments(host, service, monitor);
    RenderArgumentWord("host", v);
    RenderArgumentWord("service", v);
    RenderArgumentWord("monitor", v);
    BracedArguments();
  }

  lemma {:induction false} BracedArguments()
    ensures "{" + "host" + "}" == "{host}"
    ensures "{" + "service" + "}" == "{service}"
    ensures "{" + "monitor" + "}" == "{monitor}"
  {
  }

  /** A step that is one plain field naming an argument renders as that argument. */
  lemma {:induction false} RenderArgumentWord(w: string, v: Values)
    requires w == "host" || w == "service" || w == "monitor"
    ensures RenderStep("{" + w + "}", v) == Ok(Argument(w, v).value)
  {
    assert forall j :: 0 <= j < 4 ==> NameChar("host"[j]);
    assert forall j :: 0 <= j < 7 ==> NameChar("service"[j]) && NameChar("monitor"[j]);
    RenderSimpleField(w, v);
    assert !AllDigits(w) by {
      assert !IsDigit(w[0]);
    }
  }

  /** A character that may appear in a plain argument name. */
  predicate NameChar(c: char) {
    c != '{' && c != '}' && c != '[' && c != ']' && c != ':' && c != '!' && c != '.'
  }

  /** A field `{name}` with a plain name renders as that argument, or raises. */
  lemma {:induction false} RenderSimpleField(name: string, v: Values)
    requires forall j :: 0 <= j < |name| ==> NameChar(name[j])
    ensures FormatStep("{" + name + "}", v) == RenderField(Markup(name, None, ""), v, TopDepth)
    ensures FieldHead(name) == name
  {
    ScanField(name);
    FormatOneField(Markup(name, None, ""), v, TopDepth);
    FieldHeadPlain(name);
  }

  lemma {:induction false} FieldHeadPlain(name: string)
    requires forall j :: 0 <= j < |name| ==> NameChar(name[j])
    ensures FieldHead(name) == name
  {
    if name != [] {
      assert NameChar(name[0]);
      FieldHeadPlain(name[1..]);
    }
  }

  lemma {:induction false} NameScanPlain(t: string, i: nat, n: nat)
    requires i <= n < |t| && t[n] == '}'
    requires forall j :: i <= j < n ==> NameChar(t[j])
    ensures NameScan(t, i) == Stop(n)
    decreases n - i
  {
    if i < n {
      assert NameChar(t[i]);
      NameScanPlain(t, i + 1, n);
    }
  }

  /** `{name}` with a plain name scans as one field. */
  lemma {:induction false} ScanField(name: string)
    requires forall j :: 0 <= j < |name| ==> NameChar(name[j])
    ensures Scan("{" + name + "}") == Parsed([Item("", Some(Markup(name, None, "")))], None)
  {
    var s := "{" + name + "}";
    Braced(name);
    assert s[1] != '{' by {
      if name != [] {
        assert s[1] == name[0] && NameChar(name[0]);
      }
    }
    ParseFieldPlain(name);
    ScanOneField(s, Markup(name, None, ""));
  }

  lemma {:induction false} Braced(name: string)
    ensures |"{" + name + "}"| == |name| + 2 && ("{" + name + "}")[0] == '{'
    ensures ("{" + name + "}")[1..] == name + "}"
  {
    var s, t := "{" + name + "}", name + "}";
    forall j | 0 <= j < |t| ensures s[1..][j] == t[j] {
      if j < |name| {
        assert s[1..][j] == s[j + 1] == name[j];
      }
    }
  }

  /** A text that is one replacement field scans as that field. */
  lemma {:induction false} ScanOneField(s: string, m: Markup)
    requires |s| >= 2 && s[0] == '{' && s[1] != '{' && ParseField(s[1..]) == Next(m, [])
    ensures Scan(s) == Parsed([Item("", Some(m))], None)
  {
    NextItemField(s, m, []);
    ScanOne(s, Item("", Some(m)));
  }

  lemma {:induction false} ParseFieldPlain(name: string)
    requires forall j :: 0 <= j < |name| ==> NameChar(name[j])
    ensures ParseField(name + "}") == Next(Markup(name, None, ""), [])
  {
    var t := name + "}";
    assert forall j :: 0 <= j < |name| ==> t[j] == name[j];
    NameScanPlain(t, 0, |name|);
    assert t[..|name|] == name;
    assert t[|name| + 1..] == [];
  }

  lemma {:induction false} NextItemField(s: string, m: Markup, rest: string)
    requires |s| >= 2 && s[0] == '{' && s[1] != '{' && ParseField(s[1..]) == Next(m, rest)
    ensures NextItem(s) == Next(Item("", Some(m)), rest)
  {
    assert BraceAt(s, 0) == 0;
    assert s[..0] == "";
  }

  lemma {:induction false} FormatOneField(m: Markup, v: Values, depth: nat)
    ensures Format([Item("", Some(m))], None, v, depth) == RenderField(m, v, depth)
  {
    assert [Item("", Some(m))][1..] == [];
    if RenderField(m, v, depth).Ok? {
      assert "" + RenderField(m, v, depth).value + "" == RenderField(m, v, depth).value;
    }
  }

  /** A step without braces renders as itself. */
  lemma {:induction false} RenderPlain(step: string, v: Values)
    requires forall j :: 0 <= j < |step| ==> !IsBrace(step[j])
    ensures RenderStep(step, v) == Ok(step)
  {
    if step != [] {
      ScanPlain(step);
      FormatLiteral(step, v);
    }
  }

  lemma {:induction false} FormatLiteral(text: string, v: Values)
    ensures Format([Item(text, None)], None, v, TopDepth) == Ok(text)
  {
    assert [Item(text, None)][1..] == [];
    assert text + "" == text;
  }

  /** The position of the first field that raises, if the fields before it all render. */
  predicate FirstRaising(items: seq<Item>, j: nat, v: Values, depth: nat) {
    j < |items| && items[j].field.Some? && RenderField(items[j].field.value, v, depth).Raises?
    && forall i :: 0 <= i < j && items[i].field.Some? ==> RenderField(items[i].field.value, v, depth).Ok?
  }

  /** The first field that raises decides what `str.format` raises. */
  lemma {:induction false} FormatFirstRaising(items: seq<Item>, error: Option<string>, j: nat, v: Values, depth: nat)
    requires FirstRaising(items, j, v, depth)
    ensures Format(items, error, v, depth) == RenderField(items[j].field.value, v, depth)
  {
    if j == 0 {
      FormatHeadRaises(items, error, v, depth);
    } else {
      FirstRaisingTail(items, j, v, depth);
      FormatFirstRaising(items[1..], error, j - 1, v, depth);
      FormatSkipsRendered(items, error, v, depth);
    }
  }

  /** A first field that raises makes the whole format raise the same. */
  lemma {:induction false} FormatHeadRaises(items: seq<Item>, error: Option<string>, v: Values, depth: nat)
    requires items != [] && items[0].field.Some? && RenderField(items[0].field.value, v, depth).Raises?
    ensures Format(items, error, v, depth) == RenderField(items[0].field.value, v, depth)
  {
  }

  /** Past a first item that renders, the same field is the first to raise. */
  lemma {:induction false} FirstRaisingTail(items: seq<Item>, j: nat, v: Values, depth: nat)
    requires FirstRaising(items, j, v, depth) && j > 0
    ensures FirstRaising(items[1..], j - 1, v, depth) && items[1..][j - 1] == items[j]
    ensures items[0].field.Some? ==> RenderField(items[0].field.value, v, depth).Ok?
  {
    forall i | 0 <= i < j - 1 && items[1..][i].field.Some?
      ensures RenderField(items[1..][i].field.value, v, depth).Ok?
    {
      assert items[1..][i] == items[i + 1];
    }
  }

  /** A first item that renders leaves the error of the rest unchanged. */
  lemma {:induction false} FormatSkipsRendered(items: seq<Item>, error: Option<string>, v: Values, depth: nat)
    requires items != []
    requires items[0].field.Some? ==> RenderField(items[0].field.value, v, depth).Ok?
    requires Format(items[1..], error, v, depth).Raises?
    ensures Format(items, error, v, depth) == Format(items[1..], error, v, depth)
  {
  }

  /** A step whose first failing field names an unknown argument is left as written, and a
      step whose first failing field is positional raises `IndexError`. */
  lemma {:induction false} RenderUnknownName(step: string, j: nat, v: Values)
    requires FirstRaising(Scan(step).items, j, v, TopDepth)
    ensures RenderField(Scan(step).items[j].field.value, v, TopDepth) == Raises(KeyError) ==> RenderStep(step, v) == Ok(step)
    ensures RenderField(Scan(step).items[j].field.value, v, TopDepth) == Raises(IndexError) ==> RenderStep(step, v) == Raises(IndexError)
  {
    FormatFirstRaising(Scan(step).items, Scan(step).error, j, v, TopDepth);
  }

  /** `{container}` names no argument of `str.format`: the step is left as written. */
  lemma {:induction false} RenderContainer(v: Values)
    ensures RenderStep("{container}", v) == Ok("{container}")
  {
    ContainerWord();
    ContainerArgument(v);
    RenderUnknownWord("container", v);
    BracedContainer();
  }

  /** A field whose plain name is none of the three arguments is left as written. */
  lemma {:induction false} RenderUnknownWord(w: string, v: Values)
    requires w != [] && !IsDigit(w[0]) && forall j :: 0 <= j < |w| ==> NameChar(w[j])
    requires Argument(w, v).None?
    ensures RenderStep("{" + w + "}", v) == Ok("{" + w + "}")
  {
    RenderSimpleField(w, v);
    FieldHeadPlain(w);
  }

  lemma {:induction false} ContainerWord()
    ensures forall j :: 0 <= j < |"container"| ==> NameChar("container"[j])
    ensures !IsDigit("container"[0])
  {
    assert forall j :: 0 <= j < 9 ==> NameChar("container"[j]);
  }

  lemma {:induction false} BracedContainer()
    ensures "{" + "container" + "}" == "{container}"
  {
  }

  lemma {:induction false} ContainerArgument(v: Values)
    ensures Argument("container", v) == None
  {
    assert |"container"| == 9 && |"host"| == 4 && |"service"| == 7 && |"monitor"| == 7;
  }
}
