/** The Python string operations the alert engine uses: substring search, prefix
    tests, `split(sep, 1)`, `lower()`, `strip()` and `int()` parsing. */
module PyStr {
  import opened PyJson

  /** `s.startswith(p)`. */
  predicate StartsWith(s: string, p: string) {
    |p| <= |s| && s[..|p|] == p
  }

  /** `needle` occurs in `hay` at position `k`. */
  predicate OccursAt(hay: string, needle: string, k: int) {
    0 <= k && k + |needle| <= |hay| && hay[k..k + |needle|] == needle
  }

  /** `hay.find(needle)`: the first position at which `needle` occurs. */
  function Find(hay: string, needle: string): (r: Option<nat>)
    ensures r.Some? ==> OccursAt(hay, needle, r.value)
    ensures r.Some? ==> forall k :: 0 <= k < r.value ==> !OccursAt(hay, needle, k)
    ensures r.None? ==> forall k :: !OccursAt(hay, needle, k)
    decreases |hay|
  {
    if StartsWith(hay, needle) then Some(0)
    else if hay == [] then None
    else
      var r := Find(hay[1..], needle);
      assert forall k :: 1 <= k && OccursAt(hay, needle, k) ==> OccursAt(hay[1..], needle, k - 1) by {
        forall k | 1 <= k && OccursAt(hay, needle, k) ensures OccursAt(hay[1..], needle, k - 1) {
          assert hay[1..][k - 1..k - 1 + |needle|] == hay[k..k + |needle|];
        }
      }
      assert forall k :: OccursAt(hay[1..], needle, k) ==> OccursAt(hay, needle, k + 1) by {
        forall k | OccursAt(hay[1..], needle, k) ensures OccursAt(hay, needle, k + 1) {
          assert hay[1..][k..k + |needle|] == hay[k + 1..k + 1 + |needle|];
        }
      }
      assert !OccursAt(hay, needle, 0);
      if r.Some? then Some(r.value + 1) else None
  }

  /** `needle in hay`. */
  predicate Contains(hay: string, needle: string) {
    Find(hay, needle).Some?
  }

  /** `s.split(sep, 1)[0]`: the text before the first `sep`, or all of `s`. */
  function Before(s: string, sep: string): (r: string)
    ensures Contains(s, sep) ==> r == s[..Find(s, sep).value]
    ensures !Contains(s, sep) ==> r == s
  {
    match Find(s, sep)
    case Some(k) => s[..k]
    case None => s
  }

  /** `s.split(sep, 1)[1]`, for a separator that occurs. */
  function After(s: string, sep: string): (r: string)
    requires Contains(s, sep)
    ensures s == Before(s, sep) + sep + r
  {
    var k := Find(s, sep).value;
    SplitThree(s, k, k + |sep|);
    s[k + |sep|..]
  }

  lemma {:induction false} SplitThree(s: string, i: nat, j: nat)
    requires i <= j <= |s|
    ensures s == s[..i] + s[i..j] + s[j..]
  {
    var t := s[..j];
    assert t[..i] == s[..i] && t[i..] == s[i..j];
    assert t == t[..i] + t[i..];
    assert s == t + s[j..];
  }

  function LowerChar(c: char): char {
    if 'A' <= c <= 'Z' then (c as int + 32) as char
    else if '\U{0410}' <= c <= '\U{042F}' then (c as int + 32) as char
    else if '\U{0400}' <= c <= '\U{040F}' then (c as int + 80) as char
    else c
  }

  /** `s.lower()` for the Latin and Cyrillic alphabets. */
  function Lower(s: string): (r: string)
    ensures |r| == |s|
    ensures forall k :: 0 <= k < |s| ==> r[k] == LowerChar(s[k])
  {
    seq(|s|, k requires 0 <= k < |s| => LowerChar(s[k]))
  }

  /** `c.isspace()`. */
  predicate IsSpace(c: char) {
    c == ' ' || '\t' <= c <= '\r' || '\U{001C}' <= c <= '\U{001F}'
    || c == '\U{0085}' || c == '\U{00A0}' || c == '\U{1680}'
    || '\U{2000}' <= c <= '\U{200A}' || c == '\U{2028}' || c == '\U{2029}'
    || c == '\U{202F}' || c == '\U{205F}' || c == '\U{3000}'
  }

  function StripLeft(s: string): (r: string)
    ensures |r| <= |s| && r == s[|s| - |r|..]
    ensures r != [] ==> !IsSpace(r[0])
    ensures forall k :: 0 <= k < |s| - |r| ==> IsSpace(s[k])
  {
    if s != [] && IsSpace(s[0]) then StripLeft(s[1..]) else s
  }

  function StripRight(s: string): (r: string)
    ensures |r| <= |s| && r == s[..|r|]
    ensures r != [] ==> !IsSpace(r[|r| - 1])
    ensures forall k :: |r| <= k < |s| ==> IsSpace(s[k])
  {
    if s != [] && IsSpace(s[|s| - 1]) then StripRight(s[..|s| - 1]) else s
  }

  /** `s.strip()`. */
  function Strip(s: string): (r: string)
    ensures r != [] ==> !IsSpace(r[0]) && !IsSpace(r[|r| - 1])
    ensures exists i, j :: 0 <= i <= j <= |s| && r == s[i..j]
  {
    var l := StripLeft(s);
    var r := StripRight(l);
    assert r == s[|s| - |l|..|s| - |l| + |r|];
    r
  }

  /** Stripping stops at a character that is not whitespace: leading whitespace before it
      goes, and everything from it on stays. */
  lemma {:induction false} StripLeftAppend(a: string, b: string)
    requires b != [] && !IsSpace(b[0])
    ensures StripLeft(a + b) == StripLeft(a) + b
  {
    if a != [] {
      assert (a + b)[0] == a[0] && (a + b)[1..] == a[1..] + b;
      if IsSpace(a[0]) {
        StripLeftAppend(a[1..], b);
      }
    }
  }

  lemma {:induction false} StripRightPrepend(a: string, b: string)
    requires a != [] && !IsSpace(a[|a| - 1])
    ensures StripRight(a + b) == a + StripRight(b)
  {
    if b != [] {
      assert (a + b)[|a + b| - 1] == b[|b| - 1] && (a + b)[..|a + b| - 1] == a + b[..|b| - 1];
      if IsSpace(b[|b| - 1]) {
        StripRightPrepend(a, b[..|b| - 1]);
      }
    } else {
      assert a + b == a;
    }
  }

  /** Text with no surrounding whitespace strips to itself, so stripping is idempotent. */
  lemma {:induction false} StripStripped(s: string)
    requires s != [] ==> !IsSpace(s[0]) && !IsSpace(s[|s| - 1])
    ensures Strip(s) == s
  {
  }

  lemma {:induction false} StripLeftIdempotent(s: string)
    ensures StripLeft(StripLeft(s)) == StripLeft(s)
  {
  }

  /** A one-character text occurs exactly where that character is. */
  lemma {:induction false} ContainsChar(s: string, c: char)
    ensures Contains(s, [c]) <==> c in s
  {
    if c in s {
      var k :| 0 <= k < |s| && s[k] == c;
      assert OccursAt(s, [c], k);
    }
    if Contains(s, [c]) {
      var k := Find(s, [c]).value;
      assert s[k..k + 1][0] == s[k];
    }
  }

  /** `(a + sep + b).split(sep, 1)[0] == a` when `sep` does not start inside `a`. */
  lemma {:induction false} BeforeJoined(a: string, sep: string, b: string)
    requires forall k :: 0 <= k < |a| ==> !OccursAt(a + sep + b, sep, k)
    ensures Find(a + sep + b, sep) == Some(|a|)
    ensures Before(a + sep + b, sep) == a
  {
    var s := a + sep + b;
    assert s[|a|..|a| + |sep|] == sep;
    assert OccursAt(s, sep, |a|);
    assert s[..|a|] == a;
  }

  /** A character absent from `a` does not occur inside `a`. */
  lemma {:induction false} CharNotInside(a: string, c: char, b: string)
    requires c !in a
    ensures forall k :: 0 <= k < |a| ==> !OccursAt(a + [c] + b, [c], k)
  {
    forall k | 0 <= k < |a| ensures !OccursAt(a + [c] + b, [c], k) {
      var s := a + [c] + b;
      assert s[k] == a[k];
      assert s[k..k + 1] == [s[k]];
    }
  }

  predicate IsDigit(c: char) {
    '0' <= c <= '9'
  }

  /** A non-empty run of ASCII digits. */
  predicate AllDigits(s: string) {
    s != [] && forall k :: 0 <= k < |s| ==> IsDigit(s[k])
  }

  /** The digits of an integer literal, with single underscores allowed between digits. */
  predicate DigitGroups(s: string) {
    s != [] && IsDigit(s[0]) && IsDigit(s[|s| - 1])
    && (forall k :: 0 <= k < |s| ==> IsDigit(s[k]) || s[k] == '_')
    && (forall k :: 0 <= k < |s| - 1 ==> !(s[k] == '_' && s[k + 1] == '_'))
  }

  /** The value of a digit string, skipping underscores. */
  function DigitsValue(s: string): nat {
    if s == [] then 0
    else
      var last := s[|s| - 1];
      if IsDigit(last) then DigitsValue(s[..|s| - 1]) * 10 + (last as int - '0' as int)
      else DigitsValue(s[..|s| - 1])
  }

  /** `int(s)` for a string: surrounding whitespace, an optional sign, then decimal digits. */
  function ParseInt(s: string): (r: Option<int>)
    ensures r.Some? ==> Strip(s) != ""
  {
    var t := Strip(s);
    if t == [] then None
    else
      var negative := t[0] == '-';
      var body := if t[0] == '-' || t[0] == '+' then t[1..] else t;
      if !DigitGroups(body) then None
      else
        var v: int := DigitsValue(body);
        Some(if negative then -v else v)
  }

  /** `sep.join(parts)`. */
  function Join(sep: string, parts: seq<string>): string {
    if parts == [] then ""
    else if |parts| == 1 then parts[0]
    else parts[0] + sep + Join(sep, parts[1..])
  }

  lemma {:induction false} DigitsValueOfNat(n: nat)
    ensures DigitsValue(NatDigits(n)) == n
  {
    var d := NatDigits(n);
    if n >= 10 {
      DigitsValueOfNat(n / 10);
      assert d[..|d| - 1] == NatDigits(n / 10);
    }
    assert d[|d| - 1] == DigitChar(n % 10);
    DigitCharValue(n % 10);
  }

  lemma {:induction false} DigitCharValue(k: nat)
    requires k < 10
    ensures DigitChar(k) as int - '0' as int == k
  {
  }

  /** Round trip: `int(str(i)) == i`. */
  lemma {:induction false} ParseDecimal(i: int)
    ensures ParseInt(Decimal(i)) == Some(i)
  {
    var n: nat := if i < 0 then -i else i;
    DecimalStripped(i);
    NatDigitGroups(n);
    DigitsValueOfNat(n);
    assert NatDigits(n)[0] != '-' && NatDigits(n)[0] != '+';
    assert Decimal(i)[0] == '-' <==> i < 0;
    assert i < 0 ==> Decimal(i)[1..] == NatDigits(n);
  }

  lemma {:induction false} NatDigitGroups(n: nat)
    ensures DigitGroups(NatDigits(n))
  {
  }

  lemma {:induction false} DecimalStripped(i: int)
    ensures Strip(Decimal(i)) == Decimal(i)
  {
    var t := Decimal(i);
    assert !IsSpace(t[0]) && !IsSpace(t[|t| - 1]);
  }
}
