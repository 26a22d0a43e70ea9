/** Sequences used as Python sets and dict-backed counters: first-occurrence
    deduplication, occurrence counts, and `sorted()` on strings (code-point order). */
module SeqSets {

  predicate Distinct(s: seq<string>) {
    forall i, j :: 0 <= i < j < |s| ==> s[i] != s[j]
  }

  /** `s.count(x)`. */
  function Count(s: seq<string>, x: string): nat {
    if s == [] then 0 else Count(s[..|s| - 1], x) + (if s[|s| - 1] == x then 1 else 0)
  }

  /** The position of the first occurrence of `x` in `s`. */
  function FirstIndex(s: seq<string>, x: string): (k: nat)
    requires x in s
    ensures k < |s| && s[k] == x
    ensures forall j :: 0 <= j < k ==> s[j] != x
  {
    if s[0] == x then 0 else 1 + FirstIndex(s[1..], x)
  }

  /** The distinct elements of `s` in order of first occurrence. */
  function Dedup(s: seq<string>): (r: seq<string>)
    ensures Distinct(r)
    ensures forall x :: x in r ==> x in s
    ensures forall x :: x in s ==> x in r
    ensures |r| <= |s|
  {
    if s == [] then []
    else
      var init := s[..|s| - 1];
      assert s == init + [s[|s| - 1]];
      var d := Dedup(init);
      if s[|s| - 1] in d then d else d + [s[|s| - 1]]
  }

  /** `a + [x for x in b if x not in a]` keeping the first occurrence: `set |= other`. */
  function Union(a: seq<string>, b: seq<string>): (r: seq<string>)
    ensures forall x :: x in r ==> x in a || x in b
    ensures forall x :: x in a ==> x in r
    ensures forall x :: x in b ==> x in r
  {
    Dedup(a + b)
  }

  lemma {:induction false} DedupPrefix(s: seq<string>, i: nat)
    requires i <= |s|
    ensures exists t :: Dedup(s) == Dedup(s[..i]) + t
    decreases |s| - i
  {
    if i == |s| {
      assert s[..i] == s;
      assert Dedup(s) == Dedup(s[..i]) + [];
    } else {
      DedupPrefix(s, i + 1);
      var t :| Dedup(s) == Dedup(s[..i + 1]) + t;
      assert s[..i + 1][..i] == s[..i];
      var d := Dedup(s[..i]);
      if s[i] in d {
        assert Dedup(s) == d + t;
      } else {
        assert Dedup(s) == d + ([s[i]] + t);
      }
    }
  }

  lemma {:induction false} DedupOfDistinct(s: seq<string>)
    requires Distinct(s)
    ensures Dedup(s) == s
  {
    if s != [] {
      var init := s[..|s| - 1];
      DedupOfDistinct(init);
      assert s[|s| - 1] !in init;
      assert s == init + [s[|s| - 1]];
    }
  }

  /** Deduplication keeps the order in which elements first occur. */
  lemma {:induction false} DedupFirstOccurrenceOrder(s: seq<string>, a: nat, b: nat)
    requires a < b < |Dedup(s)|
    ensures FirstIndex(s, Dedup(s)[a]) < FirstIndex(s, Dedup(s)[b])
  {
    var init := s[..|s| - 1];
    var last := s[|s| - 1];
    var d := Dedup(init);
    assert s == init + [last];
    if b < |d| {
      DedupFirstOccurrenceOrder(init, a, b);
      FirstIndexOfPrefix(init, s, d[a]);
      FirstIndexOfPrefix(init, s, d[b]);
    } else {
      assert Dedup(s) == d + [last] && last !in d && Dedup(s)[b] == last;
      assert last !in init;
      assert FirstIndex(s, last) == |s| - 1;
      FirstIndexOfPrefix(init, s, d[a]);
    }
  }

  /** One more element: deduplication keeps it only when it is new. */
  lemma {:induction false} DedupStep(s: seq<string>, j: nat)
    requires j < |s|
    ensures Dedup(s[..j + 1]) == if s[j] in Dedup(s[..j]) then Dedup(s[..j]) else Dedup(s[..j]) + [s[j]]
  {
    assert s[..j + 1][..j] == s[..j];
  }

  lemma {:induction false} DedupFirstOccurrenceMonotone(s: seq<string>, a: nat, b: nat)
    requires a <= b < |Dedup(s)|
    ensures FirstIndex(s, Dedup(s)[a]) <= FirstIndex(s, Dedup(s)[b])
  {
    if a < b {
      DedupFirstOccurrenceOrder(s, a, b);
    }
  }

  lemma {:induction false} FirstIndexOfPrefix(p: seq<string>, s: seq<string>, x: string)
    requires x in p && p <= s
    ensures FirstIndex(s, x) == FirstIndex(p, x)
  {
    if p[0] != x {
      assert p[1..] <= s[1..];
      FirstIndexOfPrefix(p[1..], s[1..], x);
    }
  }

  // ----- strings in code-point order, as Python compares them -----

  /** `a <= b` on Python strings: lexicographic by code point. */
  predicate StrLe(a: string, b: string) {
    a == [] || (b != [] && (a[0] < b[0] || (a[0] == b[0] && StrLe(a[1..], b[1..]))))
  }

  lemma {:induction false} StrLeTotal(a: string, b: string)
    ensures StrLe(a, b) || StrLe(b, a)
  {
    if a != [] && b != [] && a[0] == b[0] {
      StrLeTotal(a[1..], b[1..]);
    }
  }

  lemma {:induction false} StrLeTransitive(a: string, b: string, c: string)
    requires StrLe(a, b) && StrLe(b, c)
    ensures StrLe(a, c)
  {
    if a != [] && b != [] && c != [] && a[0] == b[0] && b[0] == c[0] {
      StrLeTransitive(a[1..], b[1..], c[1..]);
    }
  }

  lemma {:induction false} StrLeAntisymmetric(a: string, b: string)
    requires StrLe(a, b) && StrLe(b, a)
    ensures a == b
  {
    if a != [] && b != [] {
      StrLeAntisymmetric(a[1..], b[1..]);
      assert a == [a[0]] + a[1..] && b == [b[0]] + b[1..];
    }
  }

  predicate Sorted(s: seq<string>) {
    forall i, j :: 0 <= i < j < |s| ==> StrLe(s[i], s[j])
  }

  function Insert(x: string, s: seq<string>): seq<string> {
    if s == [] then [x]
    else if StrLe(x, s[0]) then [x] + s
    else [s[0]] + Insert(x, s[1..])
  }

  lemma {:induction false} InsertMembers(x: string, s: seq<string>)
    ensures multiset(Insert(x, s)) == multiset(s) + multiset{x}
    ensures forall y :: y in Insert(x, s) ==> y == x || y in s
  {
    if s != [] && !StrLe(x, s[0]) {
      InsertMembers(x, s[1..]);
      assert s == [s[0]] + s[1..];
    }
  }

  lemma {:induction false} InsertSorted(x: string, s: seq<string>)
    requires Sorted(s)
    ensures Sorted(Insert(x, s))
  {
    if s == [] {
    } else if StrLe(x, s[0]) {
      var r := [x] + s;
      forall i, j | 0 <= i < j < |r| ensures StrLe(r[i], r[j]) {
        if i == 0 && j > 1 { StrLeTransitive(x, s[0], s[j - 1]); }
      }
    } else {
      StrLeTotal(x, s[0]);
      InsertSorted(x, s[1..]);
      InsertMembers(x, s[1..]);
      var t := Insert(x, s[1..]);
      var r := [s[0]] + t;
      forall j | 0 <= j < |t| ensures StrLe(s[0], t[j]) {
        assert t[j] in t;
      }
      forall i, j | 0 <= i < j < |r| ensures StrLe(r[i], r[j]) {
        if i > 0 { assert r[i] == t[i - 1] && r[j] == t[j - 1]; }
      }
    }
  }

  /** `sorted(s)`. */
  function Sort(s: seq<string>): (r: seq<string>)
    ensures Sorted(r)
    ensures multiset(r) == multiset(s)
    ensures |r| == |s|
  {
    if s == [] then []
    else
      var init := s[..|s| - 1];
      assert s == init + [s[|s| - 1]];
      InsertSorted(s[|s| - 1], Sort(init));
      InsertMembers(s[|s| - 1], Sort(init));
      Insert(s[|s| - 1], Sort(init))
  }

  lemma {:induction false} SortMembers(s: seq<string>)
    ensures forall x :: x in Sort(s) <==> x in s
  {
    forall x ensures x in Sort(s) <==> x in s {
      assert x in Sort(s) <==> x in multiset(Sort(s));
      assert x in s <==> x in multiset(s);
    }
  }

  /** `sorted(s)[0]` is the least element. */
  lemma {:induction false} SortHeadLeast(s: seq<string>)
    requires s != []
    ensures Sort(s)[0] in s
    ensures forall x :: x in s ==> StrLe(Sort(s)[0], x)
  {
    SortMembers(s);
    forall x | x in s ensures StrLe(Sort(s)[0], x) {
      var k :| 0 <= k < |Sort(s)| && Sort(s)[k] == x;
      if k == 0 {
        StrLeTotal(x, x);
      }
    }
  }

  lemma {:induction false} CountNotIn(s: seq<string>, x: string)
    requires x !in s
    ensures Count(s, x) == 0
  {
    if s != [] {
      CountNotIn(s[..|s| - 1], x);
    }
  }

  /** Deduplicating a prefix first changes nothing. */
  lemma {:induction false} DedupDedupLeft(x: seq<string>, y: seq<string>)
    ensures Dedup(Dedup(x) + y) == Dedup(x + y)
  {
    if y == [] {
      assert Dedup(x) + y == Dedup(x) && x + y == x;
      DedupOfDistinct(Dedup(x));
    } else {
      var init, e := y[..|y| - 1], y[|y| - 1];
      DedupDedupLeft(x, init);
      assert (Dedup(x) + y)[..|Dedup(x) + y| - 1] == Dedup(x) + init;
      assert (x + y)[..|x + y| - 1] == x + init;
    }
  }

  /** Deduplicating a suffix first changes nothing. */
  lemma {:induction false} DedupDedupRight(x: seq<string>, y: seq<string>)
    ensures Dedup(x + Dedup(y)) == Dedup(x + y)
  {
    if y == [] {
      assert x + Dedup(y) == x && x + y == x;
    } else {
      var init, e := y[..|y| - 1], y[|y| - 1];
      assert y == init + [e];
      DedupDedupRight(x, init);
      assert (x + y)[..|x + y| - 1] == x + init;
      var d := Dedup(init);
      if e in d {
        assert Dedup(y) == d;
        assert e in x + init;
      } else {
        assert Dedup(y) == d + [e];
        assert (x + Dedup(y))[..|x + Dedup(y)| - 1] == x + d;
      }
    }
  }

  /** `a | b` of two sets kept as deduplicated sequences. */
  lemma {:induction false} UnionOfDedups(x: seq<string>, y: seq<string>)
    ensures Union(Dedup(x), Dedup(y)) == Dedup(x + y)
  {
    DedupDedupLeft(x, Dedup(y));
    DedupDedupRight(x, y);
  }

  /** The first element and the rest of a concatenation whose left part is not empty. */
  lemma {:induction false} AppendTail<T>(a: seq<T>, b: seq<T>)
    requires a != []
    ensures (a + b)[0] == a[0] && (a + b)[1..] == a[1..] + b
  {
  }

  /** Every member of `a` is a member of `b`. */
  predicate Within<T(==)>(a: seq<T>, b: seq<T>) {
    forall e :: e in a ==> e in b
  }

  lemma {:induction false} WithinLeft<T>(a: seq<T>, b: seq<T>, c: seq<T>)
    requires Within(a, b)
    ensures Within(a, b + c)
  {
  }

  lemma {:induction false} WithinRight<T>(b: seq<T>, c: seq<T>)
    ensures Within(c, b + c)
  {
  }

  /** The lines of several lists, one list after the other. */
  function Concat(parts: seq<seq<string>>): seq<string> {
    if parts == [] then [] else Concat(parts[..|parts| - 1]) + parts[|parts| - 1]
  }

  lemma {:induction false} ConcatSnoc(parts: seq<seq<string>>, i: nat)
    requires i < |parts|
    ensures Concat(parts[..i + 1]) == Concat(parts[..i]) + parts[i]
  {
    assert parts[..i + 1][..i] == parts[..i];
  }

  /** Every line of every list is in the concatenation. */
  lemma {:induction false} ConcatHas(parts: seq<seq<string>>, i: nat)
    requires i < |parts|
    ensures forall x :: x in parts[i] ==> x in Concat(parts)
  {
    var init := parts[..|parts| - 1];
    if i < |init| {
      assert init[i] == parts[i];
      ConcatHas(init, i);
    }
  }

  /** The concatenation is empty exactly when every list is. */
  lemma {:induction false} ConcatEmpty(parts: seq<seq<string>>)
    ensures Concat(parts) == [] <==> forall i :: 0 <= i < |parts| ==> parts[i] == []
  {
    if parts != [] {
      var init := parts[..|parts| - 1];
      assert forall i :: 0 <= i < |init| ==> init[i] == parts[i];
      ConcatEmpty(init);
    }
  }
}
