/** Decoded JSON/YAML values and the parts of Python's data model that the alert
    engine relies on: dictionary lookup, truthiness, `str()`, iteration, indexing,
    and the exceptions these raise on values of the wrong shape. */
module PyJson {

  datatype Option<+T> = None | Some(value: T) {
    function GetOr(default: T): T {
      match this
      case Some(v) => v
      case None => default
    }
  }

  /** The Python exceptions the core can raise on input of an unexpected shape. */
  datatype PyError = TypeError | AttributeError | KeyError | IndexError | ValueError

  /** The outcome of a Python expression: it returns a value or raises. */
  datatype Py<+T> = Ok(value: T) | Raises(error: PyError) {
    predicate IsFailure() { Raises? }
    function PropagateFailure<U>(): Py<U>
      requires Raises?
    {
      Raises(error)
    }
    function Extract(): T
      requires Ok?
    {
      value
    }
  }

  /** A decoded document. `JNull` is Python's `None`. Objects keep their keys in
      insertion order, as Python dicts do; keys are strings, and a lookup reads the first
      entry with its key. */
  datatype Json =
    | JNull
    | JBool(b: bool)
    | JInt(i: int)
    | JStr(s: string)
    | JList(items: seq<Json>)
    | JObj(entries: Dict)

  type Dict = seq<(string, Json)>

  /** `key in d` for a string key. */
  predicate HasKey(d: Dict, key: string) {
    exists i :: 0 <= i < |d| && d[i].0 == key
  }

  /** The value stored under `key`, if any. */
  function Get(d: Dict, key: string): (r: Option<Json>)
  {
    if d == [] then None
    else if d[0].0 == key then Some(d[0].1)
    else Get(d[1..], key)
  }

  /** A lookup finds a value exactly when some entry has the key, and what it finds is
      stored under that key. */
  lemma {:induction false} GetSpec(d: Dict, key: string)
    ensures Get(d, key).Some? <==> HasKey(d, key)
    ensures Get(d, key).Some? ==> exists i :: 0 <= i < |d| && d[i] == (key, Get(d, key).value)
  {
    if d != [] && d[0].0 != key {
      GetSpec(d[1..], key);
      var r := Get(d[1..], key);
      assert r.Some? ==> exists i :: 0 <= i < |d[1..]| && d[1..][i] == (key, r.value);
      assert HasKey(d[1..], key) ==> HasKey(d, key) by {
        if HasKey(d[1..], key) {
          var i :| 0 <= i < |d[1..]| && d[1..][i].0 == key;
          assert d[i + 1].0 == key;
        }
      }
    }
  }

  /** `GetSpec` for a lookup of a text key in a mapping value. */
  lemma {:induction false} GetSpecOf(m: Json, key: Json)
    ensures m.JObj? && key.JStr? ==> (Get(m.entries, key.s).Some? <==> HasKey(m.entries, key.s))
  {
    if m.JObj? && key.JStr? {
      GetSpec(m.entries, key.s);
    }
  }

  /** An entry whose key no earlier entry has is what a lookup of that key finds. */
  lemma {:induction false} GetAt(d: Dict, i: nat)
    requires i < |d| && forall j :: 0 <= j < i ==> d[j].0 != d[i].0
    ensures Get(d, d[i].0) == Some(d[i].1)
  {
    if i > 0 {
      assert forall j :: 0 <= j < i - 1 ==> d[1..][j] == d[j + 1];
      GetAt(d[1..], i - 1);
    }
  }

  /** `d.get(key, default)`. */
  function GetOr(d: Dict, key: string, default: Json): Json {
    Get(d, key).GetOr(default)
  }

  /** `d.get(key)`: a missing key and a stored `None` both read as `None`. */
  function At(d: Dict, key: string): Json {
    GetOr(d, key, JNull)
  }

  /** Python truthiness. */
  predicate Truthy(j: Json) {
    match j
    case JNull => false
    case JBool(b) => b
    case JInt(i) => i != 0
    case JStr(s) => s != ""
    case JList(xs) => xs != []
    case JObj(es) => es != []
  }

  /** Values that can be dictionary keys or set members in Python. */
  predicate Hashable(j: Json) {
    !j.JList? && !j.JObj?
  }

  function DigitChar(d: nat): char
    requires d < 10
  {
    "0123456789"[d]
  }

  function NatDigits(n: nat): (r: string)
    ensures r != []
    ensures forall k :: 0 <= k < |r| ==> '0' <= r[k] <= '9'
  {
    if n < 10 then [DigitChar(n)] else NatDigits(n / 10) + [DigitChar(n % 10)]
  }

  /** `str(i)` for an integer. */
  function Decimal(i: int): string {
    if i < 0 then "-" + NatDigits(-i) else NatDigits(i)
  }

  function JoinComma(parts: seq<string>): string {
    if parts == [] then ""
    else if |parts| == 1 then parts[0]
    else parts[0] + ", " + JoinComma(parts[1..])
  }

  /** The lower-case hexadecimal digits of `n`, zero-padded to `width` digits. */
  function Hex(n: nat, width: nat): (r: string)
    ensures |r| == width
    ensures forall k :: 0 <= k < |r| ==> r[k] in "0123456789abcdef"
  {
    if width == 0 then "" else Hex(n / 16, width - 1) + ["0123456789abcdef"[n % 16]]
  }

  /** The characters `repr()` keeps as they are: printable ASCII, and the non-ASCII
      characters other than the C1 controls, the Unicode space and line separators, the
      soft hyphen and the zero-width and direction format characters. */
  predicate Printable(c: char) {
    if c < '\U{0080}' then ' ' <= c < '\U{007F}'
    else !('\U{0080}' <= c <= '\U{00A0}' || c == '\U{00AD}' || c == '\U{1680}'
           || '\U{2000}' <= c <= '\U{200F}' || '\U{2028}' <= c <= '\U{202F}'
           || '\U{205F}' <= c <= '\U{2064}' || c == '\U{3000}' || c == '\U{FEFF}')
  }

  /** The `\xhh`, `\uhhhh` or `\Uhhhhhhhh` escape of a character. */
  function HexEscape(c: char): (r: string)
    ensures forall k :: 0 <= k < |r| ==> r[k] < '\U{0080}'
  {
    var n := c as int;
    if n < 0x100 then "\\x" + Hex(n, 2)
    else if n < 0x10000 then "\\u" + Hex(n, 4)
    else "\\U" + Hex(n, 8)
  }

  /** How `repr()` writes one character of a text quoted with `quote`; with `asciiOnly`,
      as `ascii()` writes it, every non-ASCII character escaped. */
  function EscapeChar(c: char, quote: char, asciiOnly: bool): (r: string)
    ensures asciiOnly && quote < '\U{0080}' ==> forall k :: 0 <= k < |r| ==> r[k] < '\U{0080}'
  {
    if c == quote || c == '\\' then ['\\', c]
    else if c == '\t' then "\\t"
    else if c == '\n' then "\\n"
    else if c == '\r' then "\\r"
    else if c < ' ' || c == '\U{007F}' then HexEscape(c)
    else if c < '\U{0080}' then [c]
    else if asciiOnly || !Printable(c) then HexEscape(c)
    else [c]
  }

  function EscapeText(s: string, quote: char, asciiOnly: bool): (r: string)
    ensures asciiOnly && quote < '\U{0080}' ==> forall k :: 0 <= k < |r| ==> r[k] < '\U{0080}'
  {
    if s == [] then ""
    else EscapeText(s[..|s| - 1], quote, asciiOnly) + EscapeChar(s[|s| - 1], quote, asciiOnly)
  }

  /** The quote `repr()` puts around a text: a double quote when the text holds a single
      quote and no double quote, a single quote otherwise. */
  function QuoteFor(s: string): char {
    if '\'' in s && '"' !in s then '"' else '\''
  }

  /** `repr(s)` of a text, or `ascii(s)` with `asciiOnly`. */
  function ReprText(s: string, asciiOnly: bool): (r: string)
    ensures |r| >= 2 && r[0] == r[|r| - 1] == QuoteFor(s)
    ensures asciiOnly ==> forall k :: 0 <= k < |r| ==> r[k] < '\U{0080}'
  {
    var q := QuoteFor(s);
    [q] + EscapeText(s, q, asciiOnly) + [q]
  }

  /** A text `repr()` need not escape is written as it is. */
  lemma {:induction false} EscapeTextPlain(s: string, quote: char, asciiOnly: bool)
    requires forall k :: 0 <= k < |s| ==> s[k] != quote && s[k] != '\\' && Printable(s[k])
                                          && (asciiOnly ==> s[k] < '\U{0080}')
    ensures EscapeText(s, quote, asciiOnly) == s
  {
    if s != [] {
      EscapeTextPlain(s[..|s| - 1], quote, asciiOnly);
      assert s == s[..|s| - 1] + [s[|s| - 1]];
    }
  }

  /** A printable text without quotes or backslashes is shown in single quotes, and one
      holding a single quote but no double quote in double quotes; neither is escaped. */
  lemma {:induction false} ReprPlain(s: string)
    requires forall k :: 0 <= k < |s| ==> s[k] != '\\' && s[k] != '"' && Printable(s[k])
    ensures '\'' !in s ==> ReprText(s, false) == "'" + s + "'"
    ensures '\'' in s ==> ReprText(s, false) == "\"" + s + "\""
  {
    EscapeTextPlain(s, QuoteFor(s), false);
  }

  /** `repr()` of a value. */
  function Repr(j: Json): string {
    match j
    case JNull => "None"
    case JBool(b) => if b then "True" else "False"
    case JInt(i) => Decimal(i)
    case JStr(s) => ReprText(s, false)
    case JList(xs) => "[" + JoinComma(seq(|xs|, k requires 0 <= k < |xs| => Repr(xs[k]))) + "]"
    case JObj(es) =>
      "{" + JoinComma(seq(|es|, k requires 0 <= k < |es| => ReprText(es[k].0, false) + ": " + Repr(es[k].1))) + "}"
  }

  /** `str()` of a value: the text itself for a string, `repr()` otherwise. */
  function Str(j: Json): (r: string)
    ensures j.JStr? ==> r == j.s
    ensures j.JInt? ==> r == Decimal(j.i)
  {
    if j.JStr? then j.s else Repr(j)
  }

  /** `for x in j`: a list yields its items, a string its characters, an object its keys;
      `None`, booleans and integers are not iterable. */
  function Iterate(j: Json): (r: Py<seq<Json>>)
    ensures j.JList? ==> r == Ok(j.items)
    ensures r.Ok? <==> (j.JList? || j.JStr? || j.JObj?)
  {
    match j
    case JList(xs) => Ok(xs)
    case JStr(s) => Ok(seq(|s|, k requires 0 <= k < |s| => JStr([s[k]])))
    case JObj(es) => Ok(seq(|es|, k requires 0 <= k < |es| => JStr(es[k].0)))
    case _ => Raises(TypeError)
  }

  /** `for x in (j or [])`. */
  function IterateOrEmpty(j: Json): (r: Py<seq<Json>>)
    ensures !Truthy(j) ==> r == Ok([])
    ensures r.Raises? <==> (j == JBool(true) || (j.JInt? && j.i != 0))
  {
    if Truthy(j) then Iterate(j) else Ok([])
  }

  /** `key in d` for an arbitrary value: unhashable keys raise, non-string keys are absent. */
  function KeyIn(d: Dict, key: Json): (r: Py<bool>)
    ensures r.Raises? <==> !Hashable(key)
    ensures r.Ok? ==> (r.value <==> key.JStr? && HasKey(d, key.s))
  {
    if !Hashable(key) then Raises(TypeError)
    else if key.JStr? then Ok(HasKey(d, key.s))
    else Ok(false)
  }

  /** `d.get(key, default)` for an arbitrary key value. */
  function Lookup(d: Dict, key: Json, default: Json): (r: Py<Json>)
    ensures r.Raises? <==> !Hashable(key)
    ensures r.Ok? && key.JStr? ==> r.value == GetOr(d, key.s, default)
    ensures r.Ok? && !key.JStr? ==> r.value == default
  {
    if !Hashable(key) then Raises(TypeError)
    else if key.JStr? then Ok(GetOr(d, key.s, default))
    else Ok(default)
  }

  /** `j.get(key, default)` on a value that must be a dict. */
  function MethodGet(j: Json, key: string, default: Json): (r: Py<Json>)
    ensures r.Ok? <==> j.JObj?
    ensures j.JObj? ==> r.value == GetOr(j.entries, key, default)
  {
    if j.JObj? then Ok(GetOr(j.entries, key, default)) else Raises(AttributeError)
  }

  /** `j[k]` for a non-negative integer index. */
  function Index(j: Json, k: nat): (r: Py<Json>)
    ensures j.JList? && k < |j.items| ==> r == Ok(j.items[k])
  {
    match j
    case JList(xs) => if k < |xs| then Ok(xs[k]) else Raises(IndexError)
    case JStr(s) => if k < |s| then Ok(JStr([s[k]])) else Raises(IndexError)
    case JObj(_) => Raises(KeyError)
    case _ => Raises(TypeError)
  }

  /** `len(j)`. */
  function Len(j: Json): (r: Py<nat>)
    ensures j.JList? ==> r == Ok(|j.items|)
  {
    match j
    case JList(xs) => Ok(|xs|)
    case JStr(s) => Ok(|s|)
    case JObj(es) => Ok(|es|)
    case _ => Raises(TypeError)
  }

  /** `d[key] = v`: overwrites an existing key in place, otherwise appends it. */
  function Put(d: Dict, key: string, v: Json): (r: Dict)
    ensures Get(r, key) == Some(v)
    ensures forall k :: k != key ==> Get(r, k) == Get(d, k)
  {
    if d == [] then [(key, v)]
    else if d[0].0 == key then [(key, v)] + d[1..]
    else [d[0]] + Put(d[1..], key, v)
  }
}
